# AudioEffects core in Dafny

A Dafny model of the core of the AudioEffects plugin collection: the audio
effects built around a circular delay line, two smaller processors, the
cut-filter part of the three-band equalizer, the transport buttons of the
audio player's editor, and the parts of the plugin host that name, list,
look up and create plugins. Samples, phases and read positions are `real`
numbers, so the model captures the arithmetic of the code but not its float
rounding.

- `Lfo.dfy` models the shared low-frequency oscillator (sine, triangle,
  sawtooth and inverse sawtooth over a phase).
- `DelayLine.dfy` models the circular delay line: C truncation and `fmodf`,
  the fractional read position behind the write cursor, the cursor and phase
  advance, and the nearest, linear and cubic interpolation kernels, with
  Chorus's own linear kernel beside them.
- `Block.dfy` holds the generic pass of one channel through a block.
  A kernel reads the line and writes the slot under the cursor, then the
  cursor and the LFO phase advance. The specification function `Run` is
  written once; the lemmas about it (composition of blocks, causality,
  silence, the comb-filter recurrence) hold for every effect's kernel.
- `AudioBuffer.dfy` holds the multichannel block buffer (one `array<real>`
  per channel) and the silencing of unused output channels.
- `Flanger.dfy`, `Chorus.dfy`, `Delay.dfy` and `PingPongDelay.dfy` model
  the four delay-line effects. Each is a class whose `PrepareToPlay` sizes
  and clears its lines and whose `ProcessBlock` rewrites the channel arrays
  and line arrays in place. Every method is proved against the effect's
  `Run`-based specification.
- `NoiseGate.dfy` models the noise gate: a one-pole follower of the channel
  mean and a hold countdown, sample by sample, written to every channel.
- `Arpeggiator.dfy` models the arpeggiator: it tracks the held notes (a
  sorted set), advances its note clock, and releases and plays notes.
- `Equalizer.dfy` models two things. Module `CutFilter` covers the cut
  filter chain of the three-band equalizer: bypass flags and coefficient
  assignment by slope. Module `ThreeBandEqualizer` covers the slope labels,
  the filter order, the chain settings and the per-block filter update.
- `TransportEditor.dfy` models the audio player editor's transport state
  machine and the flags and texts of its buttons.
- `PluginProxy.dfy` models two things. `PluginDescriptions` holds the
  plugin description record and the case-insensitive name comparison.
  `PluginProxy` holds the proxy that wraps an in-process processor: bus
  matching, layouts and its description.
- `PluginFactory.dfy` models the in-process plugin format's factory,
  including the case-insensitive first-match lookup. The host and the test
  host have the same code; their constructor lists differ.
- `HostMenu.dfy` models the host window's plugin menu:
  - duplicate-name detection;
  - menu-ID allocation for in-process and known plugins;
  - `getChosenType`;
  - the dispatch in `menuItemSelected`;
  - the five-plugin cap on dropped files.

Where the source behaves in a way its authors evidently did not intend, the
processors keep the behaviour as written. The intended behaviour is
modelled beside it (see "## Findings").

## Model

| member | source | states |
|---|---|---|
| Lfo.WaveformIndex | Common/Utils.h:5-11 | each waveform has its enumerator value 0..3 |
| Lfo.Lfo | Common/Utils.cpp:3-41 | for a phase in [0, 1) every piecewise waveform lies in [0, 1], and so does the sine whenever sinf stays in [-1, 1]; an unwrapped phase below 1.75 stays in [-0.25, 2) |
| Lfo.StartsAtHalf | Common/Utils.cpp:10-35 | every waveform gives 0.5 at phase 0 |
| Lfo.TriangleBreakpoints | Common/Utils.cpp:14-19 | the triangle reaches 1 at a quarter period and 0 at three quarters, and its branches meet there |
| Lfo.SawtoothsComplement | Common/Utils.cpp:22-37 | the rising and falling sawtooths sum to 1 at every phase |
| Lfo.TriangleUnwrapped | Common/Utils.cpp:12-19 | the waveform does not wrap its phase: past 1.25 the triangle exceeds 1 |
| NoiseGate.LayoutSupported | NoiseGate/PluginProcessor.cpp:108-111 | a layout is accepted only when the main input equals the main output and is not disabled |
| NoiseGate.SumBounded | NoiseGate/PluginProcessor.cpp:123-126 | the channel sum of samples in [-b, b] lies in [-n b, n b] |
| NoiseGate.MeanBounded | NoiseGate/PluginProcessor.cpp:123-128 | the channel mean of samples in [-b, b] lies in [-b, b] |
| NoiseGate.FollowBounded | NoiseGate/PluginProcessor.cpp:129 | with alpha in [0, 1] the one-pole follower stays within a bound its old value and the mean respect |
| NoiseGate.FollowBetween | NoiseGate/PluginProcessor.cpp:129 | with alpha in [0, 1] the new follower value lies between the mean and the old value when the mean is the lower one |
| NoiseGate.FollowBetweenSwapped | NoiseGate/PluginProcessor.cpp:129 | with alpha in [0, 1] the new follower value lies between the old value and the mean when the old value is the lower one |
| NoiseGate.Tick | NoiseGate/PluginProcessor.cpp:123-139 | the follower moves; reaching the threshold restarts the countdown at the hold; the sample passes exactly when the countdown is positive; the countdown then drops by one and never goes negative |
| NoiseGate.Gating | NoiseGate/PluginProcessor.cpp:121-140 | one pass decision per sample of the block |
| NoiseGate.GatingPrefix | NoiseGate/PluginProcessor.cpp:121-140 | the decisions on a prefix of the block are a prefix of the block's decisions (the gate is causal) |
| NoiseGate.CountDownNonnegative | NoiseGate/PluginProcessor.cpp:131-139 | the countdown is never negative |
| NoiseGate.FollowerBounded | NoiseGate/PluginProcessor.cpp:129 | over a block the follower stays within any bound its start and every channel mean respect |
| NoiseGate.HoldCounts | NoiseGate/PluginProcessor.cpp:131-139 | after a trigger at sample j, sample t of the hold passes and the countdown is at least hold - 1 - (t - j) |
| NoiseGate.HoldKeepsOpen | NoiseGate/PluginProcessor.cpp:131-139 | after a trigger every sample of the following hold period passes |
| NoiseGate.QuietStaysShut | NoiseGate/PluginProcessor.cpp:129-139 | input that stays below the threshold never opens a closed gate, and the countdown stays at zero |
| NoiseGate.Gated | NoiseGate/PluginProcessor.cpp:134-136 | each output sample is the input sample or 0.0, per the decision |
| NoiseGate.SameChoiceOnEveryChannel | NoiseGate/PluginProcessor.cpp:134-136 | every output sample is its input or silence, and all channels take the same choice at a sample |
| NoiseGate.MixDown | NoiseGate/PluginProcessor.cpp:123-128 | the mixing loop returns the mean of the channels' samples at index j |
| NoiseGate.GateColumn | NoiseGate/PluginProcessor.cpp:134-136 | the writing loop keeps or zeroes sample j of every channel and changes nothing else |
| NoiseGate.NoiseGateProcessor.Hold | NoiseGate/PluginProcessor.cpp:132 | the hold is `(int)getSampleRate()`: the truncated sample rate |
| NoiseGate.NoiseGateProcessor.PrepareToPlay | NoiseGate/PluginProcessor.cpp:95-99 | the follower and the countdown start at zero |
| NoiseGate.NoiseGateProcessor.GateSample | NoiseGate/PluginProcessor.cpp:123-139 | one sample of processBlock equals one Tick on the channel mean, applied to every channel |
| NoiseGate.NoiseGateProcessor.ProcessBlock | NoiseGate/PluginProcessor.cpp:114-141 | every channel becomes Gated by the block's Gating decisions, and the state is the state Gating leaves |
| Arpeggiator.Add | Arpeggiator/Source/PluginProcessor.cpp:146-147 | `notes.add`: the result is sorted and holds exactly the old notes and the new one |
| Arpeggiator.Remove | Arpeggiator/Source/PluginProcessor.cpp:148-149 | `notes.removeValue`: the result is sorted and holds exactly the old notes except the removed one |
| Arpeggiator.Track | Arpeggiator/Source/PluginProcessor.cpp:143-150 | the message loop keeps the held notes a sorted set |
| Arpeggiator.TrackHolds | Arpeggiator/Source/PluginProcessor.cpp:143-150 | a note is held after the loop iff the last message about it was a note-on, or no message spoke of it and it was held before |
| Arpeggiator.StepKeepsTime | Arpeggiator/Source/PluginProcessor.cpp:166-172 | the time becomes (time + numSamples) mod noteDuration, so it stays in [0, noteDuration); the held notes are unchanged and currentNote indexes them after a step |
| Arpeggiator.StepEventsInBlock | Arpeggiator/Source/PluginProcessor.cpp:154-170 | events are emitted only when the step falls within the block, and each offset lies inside the block |
| Arpeggiator.StepReleases | Arpeggiator/Source/PluginProcessor.cpp:158-162 | a step emits a note-off first iff lastNoteValue > 0, on channel 1 and for that note |
| Arpeggiator.StepPlaysNext | Arpeggiator/Source/PluginProcessor.cpp:164-169 | with notes held, a step advances cyclically to the next note, records it as sounding and ends with its note-on on channel 1 at velocity 127 |
| Arpeggiator.StepWithoutNotes | Arpeggiator/Source/PluginProcessor.cpp:154-170 | with no note held, a step emits only note-offs and leaves no positive note sounding |
| Arpeggiator.NoteZeroNeverReleased | Arpeggiator/Source/PluginProcessor.cpp:158 | as written, a sounding note 0 is re-triggered without ever being released |
| Arpeggiator.IntendedStepReleasesEveryNote | Arpeggiator/Source/PluginProcessor.cpp:154-170 | with the guard `lastNoteValue >= 0`, every sounding note, note 0 included, is released before the next note plays |
| Arpeggiator.ArpeggiatorProcessor.PrepareToPlay | Arpeggiator/Source/PluginProcessor.cpp:95-102 | no note held, currentNote 0, nothing sounding (-1), time 0, and the rate is stored |
| Arpeggiator.ArpeggiatorProcessor.TrackNotes | Arpeggiator/Source/PluginProcessor.cpp:143-150 | the held notes become Track of the block's messages |
| Arpeggiator.ArpeggiatorProcessor.Advance | Arpeggiator/Source/PluginProcessor.cpp:152-172 | the new fields and the emitted events are exactly Step's |
| Arpeggiator.ArpeggiatorProcessor.ProcessBlock | Arpeggiator/Source/PluginProcessor.cpp:136-173 | the new fields and the block's MIDI output are Block of the old fields and the incoming messages |
| AudioBuffer.Silence | Chorus/PluginProcessor.cpp:264-265 | a silent channel of n samples: length n, every sample 0 |
| AudioBuffer.Clear | Chorus/PluginProcessor.cpp:265 | `buffer.clear` leaves every sample of the channel at 0 |
| AudioBuffer.ClearChannels | Chorus/PluginProcessor.cpp:264-265 | the output channels from..to-1 are silenced and every other channel is unchanged |
| DelayLine.Trunc | Chorus/PluginProcessor.cpp:107 | the C float-to-int conversion truncates toward zero: within one of x, on x's side of 0 |
| DelayLine.Fmod | Flanger/PluginProcessor.cpp:199 | `fmodf(x, y)` lies in [0, y) for x >= 0 and in (-y, 0] for x < 0 |
| DelayLine.FmodOfWhole | Flanger/PluginProcessor.cpp:199 | on whole non-negative numbers `fmodf` is the integer remainder |
| DelayLine.ReadPosition | Flanger/PluginProcessor.cpp:199 | a delay of 0..N samples behind cursor w reads at a position in [0, N) |
| DelayLine.ReadPositionIsFmod | Flanger/PluginProcessor.cpp:199 | the read position equals `fmodf(w - D + N, N)` for every delay D in [0, N] |
| DelayLine.WholeReadPosition | Flanger/PluginProcessor.cpp:199 | for a whole delay d the read position is (w - d + N) mod N |
| DelayLine.ReadIndex | Flanger/PluginProcessor.cpp:201 | `floorf(readPosition)` is a buffer index i with i <= pos < i + 1 |
| DelayLine.ReadHitsCursor | Flanger/PluginProcessor.cpp:199-201 | the read index lands on the write cursor iff the delay is 0 or lies within one sample of the line's length |
| DelayLine.Fraction | Flanger/PluginProcessor.cpp:213 | the interpolation weight is in [0, 1) and the index plus it gives back the position |
| DelayLine.Advance | Flanger/PluginProcessor.cpp:242-243 | the single-subtraction cursor advance is (w + 1) mod N and stays in [0, N) |
| DelayLine.AdvanceBy | Flanger/PluginProcessor.cpp:242-243 | n advances move the cursor to (w + n) mod N |
| DelayLine.AdvancePhase | Flanger/PluginProcessor.cpp:245-247 | the phase advance adds the increment and wraps once, staying in [0, 1) |
| DelayLine.AdvancePhaseBy | Flanger/PluginProcessor.cpp:245-247 | the phase after n samples stays in [0, 1) |
| DelayLine.AdvancePhaseByAdds | Flanger/PluginProcessor.cpp:245-247 | advancing by a samples and then by b is advancing by a + b |
| DelayLine.Behind | Delay/PluginProcessor.cpp:168 | the slot d behind cursor c, `(c - d + N) % N`, is c - d or c - d + N |
| DelayLine.InterpolationIndex | Common/Utils.h:13-18 | the three kernels are choices 0, 1 and 2 |
| DelayLine.NearestSample | Flanger/PluginProcessor.cpp:205-210 | NEAREST_NEIGHBOUR returns the sample at the wrapped, truncated read position, so a sample held in the line |
| DelayLine.LinearSample | Flanger/PluginProcessor.cpp:211-218 | LINEAR lies between the two samples it blends, and at a whole position it is the sample there |
| DelayLine.LinearMidpoint | Flanger/PluginProcessor.cpp:211-218 | halfway between slot i and the next one, LINEAR gives their average; the last slot's neighbour is slot 0 |
| DelayLine.CubicInterpolates | Flanger/PluginProcessor.cpp:230-234 | the cubic polynomial passes through the two middle samples at fractions 0 and 1 and reproduces a constant |
| DelayLine.CubicSample | Flanger/PluginProcessor.cpp:219-236 | CUBIC at a whole position returns the stored sample, and on a constant line returns the constant |
| DelayLine.Interpolate | Flanger/PluginProcessor.cpp:203-237 | at a whole position every kernel returns the stored sample |
| DelayLine.WholePositionReadsSample | Flanger/PluginProcessor.cpp:203-237 | at a whole read position each of the three kernels returns exactly the sample at that index |
| DelayLine.SilentBufferReadsSilence | Flanger/PluginProcessor.cpp:203-237 | every kernel, Flanger's and Chorus's, reads 0 from a silent line |
| DelayLine.ChorusLinearSample | Chorus/PluginProcessor.cpp:212-219 | Chorus's LINEAR as written plus the base sample equals the intended LINEAR: the base is lost |
| DelayLine.ChorusInterpolate | Chorus/PluginProcessor.cpp:204-238 | Chorus's kernels agree with Flanger's except LINEAR |
| DelayLine.ChorusLinearDropsBase | Chorus/PluginProcessor.cpp:217 | on the line [1, 1] at 0 Chorus's LINEAR gives 0 where the intended one gives 1 |
| Block.Run | Flanger/PluginProcessor.cpp:192-248 | a pass over xs keeps the lengths, moves the cursor to (w + \|xs\|) mod N and keeps the phase in [0, 1) |
| Block.RunPhase | Flanger/PluginProcessor.cpp:245-247 | after a pass the phase has advanced once per sample, whatever the kernel |
| Block.RunSnoc | Flanger/PluginProcessor.cpp:192-248 | one more input sample extends the pass by exactly one kernel step |
| Block.BlocksCompose | Flanger/PluginProcessor.cpp:254-255 | two blocks one after the other give the pass over their concatenation: line, cursor and phase carry across the boundary |
| Block.PrefixOut | Flanger/PluginProcessor.cpp:192-248 | a prefix of the input gives a prefix of the output (the loop is causal) |
| Block.MapsInputPass | Flanger/PluginProcessor.cpp:239 | a kernel whose output depends on the input sample alone maps the channel sample by sample |
| Block.InertPass | Flanger/PluginProcessor.cpp:239-240 | a kernel that neither changes the sample nor the line leaves both as they were |
| Block.ShadowPass | Flanger/PluginProcessor.cpp:239 | a kernel that differs from another only in its output, through g, leaves the same line and phase and outputs g of input and the other's output |
| Block.SilenceStaysSilent | Flanger/PluginProcessor.cpp:192-248 | silence through a silent line gives silence and leaves the line silent |
| Block.DryLine | Chorus/PluginProcessor.cpp:251 | a kernel that stores its dry input leaves each slot holding the input written there, or its old content |
| Block.EchoLine | Delay/PluginProcessor.cpp:163-185 | an echo leaves each slot holding what it stored from the input and output written there |
| Block.EchoNewest | Delay/PluginProcessor.cpp:163-185 | the newest output of an echo follows the comb recurrence |
| Block.CombAtExtends | Delay/PluginProcessor.cpp:163-185 | the recurrence at sample k carries over from a prefix of the block to the whole block |
| Block.EchoRecurrence | Delay/PluginProcessor.cpp:163-185 | every output of an echo is the line read d samples back: an earlier output and input, or the line's old content |
| Block.PureDelay | Delay/PluginProcessor.cpp:163-185 | an echo storing only its input outputs the input d samples earlier, or the old content of the line |
| Block.ProcessChannel | Flanger/PluginProcessor.cpp:185-248 | the in-place sample loop leaves the channel, the line, the cursor and the phase exactly as Run gives them |
| Flanger.Capacity | Flanger/PluginProcessor.cpp:118-121 | the line length is the raw maxima (ms) times the rate, truncated, at least 1 |
| Flanger.CapacityHoldsLongestDelay | Flanger/PluginProcessor.cpp:118-121 | the line holds the longest delay the sliders allow |
| Flanger.CapacityIsThousandfold | Flanger/PluginProcessor.cpp:118-119 | at 48 kHz the line has 1 920 000 slots while the longest delay is 1 920 samples |
| Flanger.SizedCapacity | Flanger/PluginProcessor.cpp:118-121 | the intended length exceeds the longest delay by at most one slot |
| Flanger.Inversion | Flanger/PluginProcessor.cpp:28 | the inverted toggle maps off to 1 and on to -1 |
| Flanger.SweepBound | Flanger/PluginProcessor.cpp:197 | delay plus width times an LFO value in [0, 1] lies between 0 and the longest delay |
| Flanger.DelayInLine | Flanger/PluginProcessor.cpp:197 | for a wrapped phase the swept delay in samples lies in [0, longest delay] |
| Flanger.Step | Flanger/PluginProcessor.cpp:197-240 | one sample writes only the cursor slot, and with depth 0 the output is the input |
| Flanger.TapWritesCursor | Flanger/PluginProcessor.cpp:197-240 | on any line holding the longest delay the kernel is defined everywhere and writes only the cursor slot |
| Flanger.DepthZeroIsDry | Flanger/PluginProcessor.cpp:239 | with depth 0 the channel is the dry input, whatever the line holds |
| Flanger.StepInverted | Flanger/PluginProcessor.cpp:239-240 | inverted mode writes the same line and mirrors the output about the input |
| Flanger.MirrorAbout | Flanger/PluginProcessor.cpp:239 | the mirrored output is as far from the input as the normal one, on the other side |
| Flanger.TapInvertedShadows | Flanger/PluginProcessor.cpp:239-240 | the inverted kernel shadows the normal one through the mirror |
| Flanger.TapInvertedAt | Flanger/PluginProcessor.cpp:239-240 | the same, at one line, cursor, phase and sample |
| Flanger.InversionMirrorsWet | Flanger/PluginProcessor.cpp:239-240 | over a block inverted mode leaves the same line and phase and mirrors every output about its input |
| Flanger.QuietInQuietOut | Flanger/PluginProcessor.cpp:192-248 | silence into a silent line gives silence and keeps the line silent, for every setting |
| Flanger.ShiftQuarter | Flanger/PluginProcessor.cpp:189-190 | the stereo offset keeps the phase in [0, 1) |
| Flanger.ShiftQuarterIsFmod | Flanger/PluginProcessor.cpp:190 | the stereo offset is `fmodf(phase + 0.25, 1)` |
| Flanger.ChannelPhase | Flanger/PluginProcessor.cpp:183-252 | the start phase of channel c, carried through the channel loop, is in [0, 1) |
| Flanger.ChannelEnd | Flanger/PluginProcessor.cpp:245-247 | the phase a channel's sweep ends on is in [0, 1) |
| Flanger.MonoChannelsDrift | Flanger/PluginProcessor.cpp:183-252 | without stereo, channel c starts where channel 0 would be after c whole blocks |
| Flanger.SecondChannelStartsOff | Flanger/PluginProcessor.cpp:183-252 | at increment 0.25, one-sample blocks and no stereo, channel 1 starts a quarter cycle off |
| Flanger.IntendedChannelPhase | Flanger/PluginProcessor.cpp:189-190 | channel 0, and every channel without stereo, starts at the block's phase |
| Flanger.ShiftQuarterCommutes | Flanger/PluginProcessor.cpp:245-247 | advancing the phase commutes with the quarter shift |
| Flanger.IntendedChannelsLocked | Flanger/PluginProcessor.cpp:189-190 | with the intended start phases, every channel stays at channel 0's phase (plus a quarter in stereo) at every sample |
| Flanger.FirstDelayDependsOnPhase | Flanger/PluginProcessor.cpp:180-197 | the first swept delay depends on the never-initialised start phase: 288 samples at phase 0, 528 at 0.25 |
| Flanger.PhaseIncrement | Flanger/PluginProcessor.cpp:245 | the per-sample increment is 0 when the frequency or the inverse rate is 0 |
| Flanger.FlangerProcessor.PrepareToPlay | Flanger/PluginProcessor.cpp:105-130 | one silent line of Capacity(rate) slots per input channel; cursor and phase 0; inverse rate stored |
| Flanger.FlangerProcessor.RunChannel | Flanger/PluginProcessor.cpp:185-248 | one channel becomes its Run; every other channel and line is unchanged |
| Flanger.FlangerProcessor.ProcessInputs | Flanger/PluginProcessor.cpp:183-252 | the channel loop as written: channel c runs from ChannelPhase; the phase kept is channel 0's end |
| Flanger.FlangerProcessor.CarryOn | Flanger/PluginProcessor.cpp:183-252 | one turn of the channel loop keeps the carried-phase invariant |
| Flanger.FlangerProcessor.CarryChannel | Flanger/PluginProcessor.cpp:189-248 | one channel, with the optional quarter shift, runs from its carried phase and ends on ChannelEnd |
| Flanger.FlangerProcessor.ProcessBlock | Flanger/PluginProcessor.cpp:164-256 | as written, from any start phase in [0, 1) standing for the uninitialised one: every input channel is Flanged from ChannelPhase, the cursor moves numSamples, the stored phase is channel 0's end |
| Flanger.FlangerProcessor.FlangeInputs | Flanger/PluginProcessor.cpp:183-252 | the channel loop with the flanger's kernel, in Flange terms |
| Flanger.FlangerProcessor.ProcessInputsLocked | Flanger/PluginProcessor.cpp:183-252 | the intended channel loop: every channel starts from IntendedChannelPhase |
| Flanger.FlangerProcessor.ProcessBlockResumed | Flanger/PluginProcessor.cpp:164-256 | the intended block: starts from the stored phase, every channel Flanged from IntendedChannelPhase, the phase advanced numSamples |
| Flanger.FlangerProcessor.FlangeInputsLocked | Flanger/PluginProcessor.cpp:183-252 | the intended channel loop with the flanger's kernel, in Flange terms |
| Flanger.ResumedBlocksJoin | Flanger/PluginProcessor.cpp:254-255 | with the phase resumed, two blocks in a row equal one block over both |
| Delay.Capacity | Delay/PluginProcessor.cpp:99-102 | the line length, `maxDelayTime * sampleRate + 1` truncated and at least 1, exceeds the longest delay in samples |
| Delay.DelaySamples | Delay/PluginProcessor.cpp:151 | the delay in samples for any slider value lies within the line |
| Delay.Step | Delay/PluginProcessor.cpp:165-184 | one sample writes only the cursor slot, and with mix 0 the output is the input |
| Delay.TapWritesCursor | Delay/PluginProcessor.cpp:168-180 | on any line at least as long as the delay the kernel is defined and writes only the cursor slot |
| Delay.GuardedBlockUntouched | Delay/PluginProcessor.cpp:170-172 | when the read index lands on the cursor (delay 0, or within one sample of the line) the channel and the line stay as they were |
| Delay.DryMixPassesInput | Delay/PluginProcessor.cpp:179 | with mix 0 every sample passes unchanged |
| Delay.QuietInQuietOut | Delay/PluginProcessor.cpp:163-185 | silence into a silent line gives silence and keeps the line silent |
| Delay.WetTapEchoes | Delay/PluginProcessor.cpp:168-180 | with mix 1 and a whole delay d the kernel outputs the slot d behind and stores the input plus feedback times it |
| Delay.WetRecurrence | Delay/PluginProcessor.cpp:163-185 | each wet output is the input d samples earlier plus feedback times the output d samples earlier; the first d replay the line |
| Delay.ImpulseComesBackOnce | Delay/PluginProcessor.cpp:163-185 | without feedback an impulse into a silent line comes out exactly d samples later, once |
| Delay.DelayProcessor.PrepareToPlay | Delay/PluginProcessor.cpp:92-109 | one silent line of Capacity(rate) slots per input channel, cursor 0 |
| Delay.DelayProcessor.ProcessInputs | Delay/PluginProcessor.cpp:157-187 | each input channel becomes its Echo from the same cursor; the cursor returned is channel 0's; other channels unchanged |
| Delay.DelayProcessor.EchoChannel | Delay/PluginProcessor.cpp:159-185 | one channel and its line become their Echo; every other channel and line is left as it was |
| Delay.DelayProcessor.ProcessBuffer | Delay/PluginProcessor.cpp:157-192 | the input channels become their Echo from the same cursor, the output channels past the inputs are silenced, and every other channel and line is left as it was |
| Delay.DelayProcessor.ProcessBlock | Delay/PluginProcessor.cpp:143-193 | every input channel is Echoed, the cursor moves numSamples, the extra output channels are silenced |
| PingPongDelay.Balance | PingPongDelay/PluginProcessor.cpp:157 | the balance slider in [-1, 1] maps onto [0, 1] (and only it does): -1 to 0, 0 to 0.5, 1 to 1 |
| PingPongDelay.Balanced | PingPongDelay/PluginProcessor.cpp:171-172 | the left input is weighted by 1 - b and the right by b: centred halves both, the ends silence one side |
| PingPongDelay.Step | PingPongDelay/PluginProcessor.cpp:171-198 | one frame writes only the cursor slot of both lines |
| PingPongDelay.TapWritesCursor | PingPongDelay/PluginProcessor.cpp:176-195 | on any line at least as long as the delay the kernel is defined and writes only the cursor slot |
| PingPongDelay.GuardedBlockUntouched | PingPongDelay/PluginProcessor.cpp:178-180 | when the read index lands on the cursor both channels and both lines stay as they were |
| PingPongDelay.DryMixGivesBalancedInput | PingPongDelay/PluginProcessor.cpp:191-192 | with mix 0 every output frame is the balanced input, not the raw input |
| PingPongDelay.WetTapEchoes | PingPongDelay/PluginProcessor.cpp:176-194 | with mix 1 and a whole delay d each side outputs its slot d behind and stores its input plus the other side's delayed sample times the feedback |
| PingPongDelay.WetRecurrence | PingPongDelay/PluginProcessor.cpp:169-199 | each wet output frame is the frame stored d samples earlier, built from that input and the opposite side's output |
| PingPongDelay.EchoesSwapSides | PingPongDelay/PluginProcessor.cpp:193-194 | once the input is silent each echo reappears on the other side scaled by the feedback |
| PingPongDelay.PingPongDelayProcessor.PrepareToPlay | PingPongDelay/PluginProcessor.cpp:99-116 | one silent line of Delay's capacity per input channel, cursor 0 |
| PingPongDelay.LayoutSupported | PingPongDelay/PluginProcessor.cpp:125-147 | a layout is accepted only when the main output is mono or stereo and the main input is the same set, so it has one or two channels |
| PingPongDelay.MonoLayoutAccepted | PingPongDelay/PluginProcessor.cpp:135-146 | mono in and mono out is accepted, with a single channel |
| PingPongDelay.StereoLayoutSupported | PingPongDelay/PluginProcessor.cpp:162-165 | the corrected check accepts only layouts with two input and two output channels, which channels 0 and 1 need |
| PingPongDelay.StereoLayoutFeedsPair | PingPongDelay/PluginProcessor.cpp:135-165 | the corrected check accepts exactly the layouts the written one accepts that have at least two input channels |
| PingPongDelay.PingPongDelayProcessor.ProcessFrames | PingPongDelay/PluginProcessor.cpp:169-199 | the sample loop leaves both channels, both lines and the cursor as Run gives them |
| PingPongDelay.PingPongDelayProcessor.StepFrame | PingPongDelay/PluginProcessor.cpp:171-195 | one frame: the kernel's output written to sample k of both channels and its line to both lines |
| PingPongDelay.PingPongDelayProcessor.PairFrames | PingPongDelay/PluginProcessor.cpp:169-199 | the stereo pair and its lines become their Bounce |
| PingPongDelay.PingPongDelayProcessor.BounceCursor | PingPongDelay/PluginProcessor.cpp:197-198 | a block moves the cursor by its length around the line |
| PingPongDelay.PingPongDelayProcessor.ProcessPair | PingPongDelay/PluginProcessor.cpp:162-201 | channels and lines 0 and 1 become their Bounce and the stored cursor moves numSamples |
| PingPongDelay.PingPongDelayProcessor.ProcessBlock | PingPongDelay/PluginProcessor.cpp:150-205 | channels 0 and 1 Bounce as a pair, the other inputs stay, the extra outputs are silenced, the cursor moves numSamples |
| Chorus.Capacity | Chorus/PluginProcessor.cpp:106-109 | the line length is the raw maxima (ms) times the rate, truncated, plus one |
| Chorus.CapacityHoldsReach | Chorus/PluginProcessor.cpp:106-109 | the line holds every delay a voice can ask for, even with its phase unwrapped |
| Chorus.CapacityIsThousandfold | Chorus/PluginProcessor.cpp:106-107 | at 48 kHz the line has 4 800 001 slots while delay plus width is at most 4 800 samples |
| Chorus.SizedCapacity | Chorus/PluginProcessor.cpp:106-109 | the intended length exceeds delay plus width in samples by at most one slot |
| Chorus.NumVoices | Chorus/PluginProcessor.cpp:20 | the voice-count choice 0..3 gives 2..5 voices, so 1..4 voices are read |
| Chorus.OffsetBelow | Chorus/PluginProcessor.cpp:245-248 | every voice's phase offset lies in [0, 0.75] |
| Chorus.OffsetsSpread | Chorus/PluginProcessor.cpp:245-248 | beyond three voices the offsets are v/(numVoices - 1); with three they are quarter steps; with two, 0 |
| Chorus.WeightsPan | Chorus/PluginProcessor.cpp:187-192 | in stereo the first voice sits wholly on the other channels, the last on channel 0, and the two weights of a voice sum to 1 |
| Chorus.MonoWeights | Chorus/PluginProcessor.cpp:193-196 | outside stereo (or with two voices) every weight is 1 |
| Chorus.VoiceInLine | Chorus/PluginProcessor.cpp:198 | every voice's delay, with the phase unwrapped as written, stays within the line prepareToPlay allocates |
| Chorus.UnwrappedVoiceOvershoots | Chorus/PluginProcessor.cpp:198 | as written, voice 3 of five at phase 0.75 reads a triangle value above 1 and a delay past delay plus width |
| Chorus.UnwrappedVoiceReadsAhead | Chorus/PluginProcessor.cpp:198 | as written, the inverse sawtooth past phase 1.5 gives a negative delay, a read ahead of the cursor |
| Chorus.WrapPhase | Chorus/PluginProcessor.cpp:198 | the intended wrap of phase plus offset lands in [0, 1) |
| Chorus.WrapPhaseIsFmod | Chorus/PluginProcessor.cpp:198 | the wrap is `fmodf(x, 1)` |
| Chorus.WrappedVoiceInSweep | Chorus/PluginProcessor.cpp:198 | with the phase wrapped every voice's delay lies between delay and delay plus width, inside a line sized for the sweep |
| Chorus.Contribution | Chorus/PluginProcessor.cpp:243 | a voice adds nothing when its sample, the depth or its weight is 0 |
| Chorus.DepthZeroIsDry | Chorus/PluginProcessor.cpp:240-243 | with depth 0 the output is the dry input, except the second channel of a stereo pair of voices, which goes silent |
| Chorus.NoDepthNoVoices | Chorus/PluginProcessor.cpp:243 | with depth 0 the voices contribute nothing |
| Chorus.SilentVoices | Chorus/PluginProcessor.cpp:185-249 | on a silent line the voices sum to 0 |
| Chorus.SilentRead | Chorus/PluginProcessor.cpp:198-238 | one voice reads 0 from a silent line |
| Chorus.MonoChannelsAgree | Chorus/PluginProcessor.cpp:185-249 | without stereo every channel gets the same output sample |
| Chorus.MonoSums | Chorus/PluginProcessor.cpp:185-249 | without stereo the voice sums agree across channels |
| Chorus.MixVoices | Chorus/PluginProcessor.cpp:182-249 | the in-place voice loop leaves sample `sample` at Chorused of its old value and changes no other sample |
| Chorus.TapStoresDry | Chorus/PluginProcessor.cpp:251 | the kernel is defined on a line that holds the reach and stores exactly the dry input at the cursor |
| Chorus.LineHoldsDryInput | Chorus/PluginProcessor.cpp:251 | no feedback: after a block the line holds the dry input from the first cursor on, and its old content elsewhere |
| Chorus.QuietInQuietOut | Chorus/PluginProcessor.cpp:178-258 | silence into a silent line gives silence and keeps the line silent |
| Chorus.BlocksJoin | Chorus/PluginProcessor.cpp:174-262 | two consecutive blocks on a channel equal one pass over both: the stored phase lets the sweep continue |
| Chorus.MixSample | Chorus/PluginProcessor.cpp:180-251 | one turn of the sample loop is one kernel step: the sample and the cursor slot change, nothing else |
| Chorus.ProcessSamples | Chorus/PluginProcessor.cpp:178-258 | the channel and its line become ChorusPass; the cursor and phase end where it does |
| Chorus.PhaseIncrement | Chorus/PluginProcessor.cpp:255 | the increment is 0 when the frequency or the inverse rate is 0 |
| Chorus.ChorusProcessor.PrepareToPlay | Chorus/PluginProcessor.cpp:94-118 | one silent line of Capacity(rate) slots per output channel; cursor and phase 0; inverse rate stored |
| Chorus.ChorusProcessor.ChorusChannel | Chorus/PluginProcessor.cpp:171-258 | channel c and its line become their ChorusPass; the others are unchanged |
| Chorus.ChorusProcessor.ChorusOn | Chorus/PluginProcessor.cpp:169-259 | one turn of the channel loop keeps its invariant |
| Chorus.ChorusProcessor.ProcessInputs | Chorus/PluginProcessor.cpp:169-259 | every input channel becomes its ChorusPass from the stored cursor and phase |
| Chorus.ChorusProcessor.ProcessBlock | Chorus/PluginProcessor.cpp:151-266 | every input channel is Chorused from the stored phase, cursor and phase move numSamples, extra outputs are silenced |
| CutFilter.EnabledStages | 3BandEqualizer/PluginProcessor.h:116-154 | the four slopes switch on stages 0..slope; any other value, having no case, switches on none |
| CutFilter.CutChain.constructor | 3BandEqualizer/PluginProcessor.h:91 | a fresh four-stage chain: no stage bypassed |
| CutFilter.CountPrefixRunning | 3BandEqualizer/PluginProcessor.h:111-154 | a pattern that runs exactly its first m stages runs m stages |
| CutFilter.PatternRuns | 3BandEqualizer/PluginProcessor.h:111-154 | the slope's bypass pattern runs exactly EnabledStages stages |
| CutFilter.UpdateCutFilter | 3BandEqualizer/PluginProcessor.h:108-155 | every stage is bypassed except the first EnabledStages, which get the designed coefficients; the rest keep their old ones |
| CutFilter.DefaultsRunOneStage | 3BandEqualizer/PluginProcessor.h:32-41 | default settings run only the first stage of each cut filter |
| ThreeBandEqualizer.Decimal | ThreeBandEqualizer/PluginProcessor.cpp:236 | `String << int` writes at least one character, all decimal digits |
| ThreeBandEqualizer.DecimalRoundTrip | ThreeBandEqualizer/PluginProcessor.cpp:236 | reading the decimal text back gives the number |
| ThreeBandEqualizer.SlopeLabelSpelled | ThreeBandEqualizer/PluginProcessor.cpp:233-239 | choice i reads "12 db/Oct", "24 db/Oct", "36 db/Oct", "48 db/Oct", whose number is 12 (i + 1) |
| ThreeBandEqualizer.SlopeLabelsDistinct | ThreeBandEqualizer/PluginProcessor.cpp:233-239 | no two slope choices share a label |
| ThreeBandEqualizer.SlopeChoices | ThreeBandEqualizer/PluginProcessor.cpp:232-239 | the loop builds the four labels in order |
| ThreeBandEqualizer.CreateParameterLayout | ThreeBandEqualizer/PluginProcessor.cpp:222-245 | seven parameters with the source's ids, ranges and defaults; the two slope choices share the four labels and default to the first |
| ThreeBandEqualizer.GetChainSettings | ThreeBandEqualizer/PluginProcessor.cpp:255-266 | each raw value lands in its field; the slope floats are truncated to int |
| ThreeBandEqualizer.ChoiceGivesSlope | ThreeBandEqualizer/PluginProcessor.cpp:263 | a choice index i reads back as slope i, which runs i + 1 stages |
| ThreeBandEqualizer.OrderMatchesStages | ThreeBandEqualizer/PluginProcessor.cpp:169-177 | the Butterworth order 2 (slope + 1) is 2, 4, 6 or 8, twice the stage count, and one sixth of its label's dB/Oct |
| ThreeBandEqualizer.EqualizerProcessor.constructor | 3BandEqualizer/PluginProcessor.h:100 | the two channel chains start in the same state |
| ThreeBandEqualizer.EqualizerProcessor.UpdateFilters | ThreeBandEqualizer/PluginProcessor.cpp:165-183 | both peaks get the new coefficients; all four cut chains get their slope's bypass pattern; the stages the slope enables get the new coefficients and the stages above keep theirs; left and right stay in step |
| TransportEditor.PlayTarget | AudioPlayerPlugin/Source/PluginEditor.cpp:39-51 | Play starts from Stopped or Paused, pauses from Playing, and does nothing in Starting, Pausing or Stopping |
| TransportEditor.StopTarget | AudioPlayerPlugin/Source/PluginEditor.cpp:58-70 | Stop goes straight to Stopped exactly from Paused, and asks for Stopping from every other state |
| TransportEditor.ChangeTarget | AudioPlayerPlugin/Source/PluginEditor.cpp:148-156 | a playing transport means Playing; otherwise Stopping and Playing become Stopped, Pausing becomes Paused, and the rest stay |
| TransportEditor.Enter | AudioPlayerPlugin/Source/PluginEditor.cpp:168-195 | entering a state sets exactly the button texts and flags its case names and leaves the others |
| TransportEditor.Level | AudioPlayerPlugin/Source/PluginEditor.cpp:80-90 | a slider value in [0, 127] over the range length is a level in [0, 1], 0 at the left end, 1 at the right |
| TransportEditor.AudioPlayerEditor.constructor | AudioPlayerPlugin/Source/PluginEditor.cpp:4-92 | the state is copied from the processor; Open enabled, Play and Stop disabled and labelled "play"/"stop"; the buttons agree with the state only for Pausing or Stopping |
| TransportEditor.AudioPlayerEditor.ChangeState | AudioPlayerPlugin/Source/PluginEditor.cpp:162-197 | an unchanged state changes nothing; otherwise the state is recorded and the buttons Enter it; consistency is kept |
| TransportEditor.AudioPlayerEditor.PlayClicked | AudioPlayerPlugin/Source/PluginEditor.cpp:39-51 | the editor and the processor both move to PlayTarget, or nothing happens |
| TransportEditor.AudioPlayerEditor.StopClicked | AudioPlayerPlugin/Source/PluginEditor.cpp:58-70 | the editor and the processor both move to StopTarget |
| TransportEditor.AudioPlayerEditor.TransportChanged | AudioPlayerPlugin/Source/PluginEditor.cpp:145-156 | the editor moves to ChangeTarget, and the processor is not told |
| TransportEditor.AudioPlayerEditor.FileChosen | AudioPlayerPlugin/Source/PluginEditor.cpp:24-32 | a chosen file enables Play; cancelling changes nothing |
| TransportEditor.AudioPlayerEditor.VolumeChanged | AudioPlayerPlugin/Source/PluginEditor.cpp:78-81 | the processor's volume becomes the slider's Level, in [0, 1] |
| TransportEditor.AudioPlayerEditor.GainChanged | AudioPlayerPlugin/Source/PluginEditor.cpp:88-91 | the processor's gain becomes the slider's Level, in [0, 1] |
| TransportEditor.PlayPauseStopCycle | AudioPlayerPlugin/Source/PluginEditor.cpp:145-197 | Play, transport start, Play, transport stop, Stop runs Starting, Playing, Pausing, Paused, Stopped, and ends showing Stopped's buttons |
| TransportEditor.StopWaitsForTransport | AudioPlayerPlugin/Source/PluginEditor.cpp:60-69 | Stop outside Paused only asks to stop; the transport's not-playing notification completes it to Stopped |
| PluginDescriptions.Upper | Host/PluginInstanceFormat.cpp:26 | case folding maps a to z onto A to Z and leaves every other character |
| PluginDescriptions.IgnoreCaseIsEquivalence | Host/PluginInstanceFormat.cpp:26 | `equalsIgnoreCase` is reflexive, symmetric and transitive |
| PluginDescriptions.CaseIsIgnored | Host/PluginInstanceFormat.cpp:26 | every name matches its upper-case form, and no name matches itself with a character appended |
| PluginProxy.GetPluginDescription | Host/PluginInstanceProxy.h:66-90 | name, descriptive name and identifier are the processor's name; no inputs makes it a Synth (with MIDI) or a Generator, otherwise an Effect; an instrument iff MIDI and no inputs; channel counts copied; both ids the name's hash |
| PluginProxy.InstrumentIsSynth | Host/PluginInstanceProxy.h:79-83 | a description is an instrument iff its category is "Synth" |
| PluginProxy.IdentityIsTheName | Host/PluginInstanceProxy.h:70-87 | processors with the same name get the same unique id and identifier |
| PluginProxy.PluginInstanceProxy.CanAddBus | Host/PluginInstanceProxy.h:56 | a bus can always be added |
| PluginProxy.PluginInstanceProxy.CanRemoveBus | Host/PluginInstanceProxy.h:57 | a bus can always be removed |
| PluginProxy.PluginInstanceProxy.AddBus | Host/PluginInstanceProxy.h:56 | the side gains one bus; the other side is unchanged |
| PluginProxy.PluginInstanceProxy.RemoveBus | Host/PluginInstanceProxy.h:57 | the side loses one bus if it has one; the other side is unchanged |
| PluginProxy.PluginInstanceProxy.MatchChannels | Host/PluginInstanceProxy.h:92-101 | the side ends with exactly the inner processor's bus count; the other side is unchanged |
| PluginProxy.PluginInstanceProxy.constructor | Host/PluginInstanceProxy.h:7-16 | whatever the starting buses, both sides match the inner processor and its layout is adopted |
| PluginProxy.PluginInstanceProxy.FillInPluginDescription | Host/PluginInstanceProxy.h:60-63 | the description is the inner processor's: its name, the in-process format, its channel counts |
| PluginProxy.PluginInstanceProxy.ApplyBusLayouts | Host/PluginInstanceProxy.h:54 | succeeds iff the inner processor and then the base accept; the inner processor takes the layout and its channel totals as soon as it accepts, even if the base then refuses; the proxy's layout changes only on success, and then the two agree |
| PluginFactory.Construct | Host/PluginInstanceFormat.cpp:31-32 | a constructor builds the instance its description describes |
| PluginFactory.FindFirst | Host/PluginInstanceFormat.cpp:23-29 | `find_if`: none iff no name matches ignoring case; otherwise the first matching index |
| PluginFactory.FindsOwnIndex | Host/PluginInstanceFormat.cpp:21-33 | with distinct names each description is found at its own index, also by a name differing only in case |
| PluginFactory.LaterDuplicateShadowed | Host/PluginInstanceFormat.cpp:23-26 | of two descriptions with the same name up to case, the later one is never found by it |
| PluginFactory.PluginFormat.Describe | Host/PluginInstanceFormat.cpp:10-18 | every constructor is called once, in order, and its instance's description kept |
| PluginFactory.PluginFormat.constructor | Host/PluginInstanceFormat.cpp:8-19 | the descriptions are those of the instances the constructors build |
| PluginFactory.PluginFormat.Host | Host/PluginInstanceFormat.cpp:35-58 | the host's list: audio in, MIDI in, audio out, MIDI out, then the reverb's proxy, five descriptions |
| PluginFactory.PluginFormat.TestHost | PluginTestHost/InternalPluginFormat.cpp:58-80 | the test host's list: the four I/O processors only |
| PluginFactory.PluginFormat.CreateInstance | Host/PluginInstanceFormat.cpp:21-33 | none iff no description matches ignoring case; otherwise the instance of the constructor at the first match |
| PluginFactory.PluginFormat.CreatePluginInstance | Host/PluginInstanceFormat.cpp:65-73 | the callback gets an instance and no error iff a name matches; otherwise no instance and "Invalid internal plugin name" |
| PluginFactory.PluginFormat.RequiresUnblockedMessageThreadDuringCreation | Host/PluginInstanceFormat.cpp:75-78 | never |
| PluginFactory.PluginFormat.GetAllTypes | Host/PluginInstanceFormat.cpp:80-83 | one description per constructor, in order |
| PluginFactory.IoConstructors | Host/PluginInstanceFormat.cpp:37-40 | the four I/O processors in the order audio in, MIDI in, audio out, MIDI out |
| PluginFactory.EveryTypeIsCreatable | Host/PluginInstanceFormat.cpp:21-33 | every listed type can be created by its own name |
| PluginFactory.EachTypeCreatesItself | Host/PluginInstanceFormat.cpp:21-33 | with distinct names each description creates exactly its own constructor's instance, with no error |
| HostMenu.Occurrences | Host/HostWindow.cpp:301-310 | the count of plugins carrying the name is never more than the list's length |
| HostMenu.OccursAtLeastOnce | Host/HostWindow.cpp:301-310 | a plugin's own name occurs at least once in a list that holds it |
| HostMenu.ContainsDuplicateNames | Host/HostWindow.cpp:301-310 | true exactly when the name occurs at least twice in the list, though the loop stops at the second match |
| HostMenu.OccurrencesOfPrefix | Host/HostWindow.cpp:303-307 | a prefix of the list holds no more occurrences than the whole list, so stopping early loses nothing |
| HostMenu.Label | Host/HostWindow.cpp:334-341 | a plugin's item text is its name, with " (format)" appended exactly when the folder holds another plugin of that name |
| HostMenu.DuplicatesTellFormatsApart | Host/HostWindow.cpp:334-341 | two same-named plugins of different formats in one folder get different item texts |
| HostMenu.TwoIndicesTwoOccurrences | Host/HostWindow.cpp:301-310 | a name at two distinct positions occurs at least twice, so both get the format suffix |
| HostMenu.PluginLabels | Host/HostWindow.cpp:334-342 | one item text per plugin of the folder, in order, each as `Label` gives it |
| HostMenu.Labels | Host/HostWindow.cpp:319-342 | one item text per plugin the tree lists, subfolders' first |
| HostMenu.ItemsOfSnoc | Host/HostWindow.cpp:319-331 | appending an entry appends its items to the menu's items |
| HostMenu.Numbered | Host/HostWindow.cpp:327-331 | texts numbered consecutively keep their count |
| HostMenu.NumberedAppend | Host/HostWindow.cpp:329-331 | numbering two lists one after the other equals numbering their concatenation |
| HostMenu.AddToMenu | Host/HostWindow.cpp:314-343 | a submenu per subfolder (filled recursively) then an item per plugin; the added plugins are the old ones followed by the tree's plugins in menu order, and the items, in order, are the tree's texts numbered from the base plus the old count |
| HostMenu.AddSubMenu | Host/HostWindow.cpp:319-325 | one turn of the subfolder loop keeps the loop's invariant: the submenus so far, their plugins appended and numbered in order |
| HostMenu.AddPluginItem | Host/HostWindow.cpp:327-342 | one turn of the plugin loop appends the plugin and an item whose ID is the base plus its position and whose text is its label |
| HostMenu.InternalLabel | Host/HostWindow.cpp:352 | an in-process plugin's text is its name and its format in parentheses |
| HostMenu.InternalLabels | Host/HostWindow.cpp:351-352 | one such text per in-process plugin, in order |
| HostMenu.WithoutInternal | Host/HostWindow.cpp:357-363 | the known plugins kept are exactly those not of the in-process format, and nothing else |
| HostMenu.HostWindow.constructor | Host/HostWindow.cpp:42-52 | the in-process plugins are the format's types; the sort method is the saved one, by manufacturer when none was saved |
| HostMenu.HostWindow.AddInternalItems | Host/HostWindow.cpp:347-353 | with a graph, the in-process plugins' texts numbered from 1; without one, no items |
| HostMenu.HostWindow.AddPluginsToMenu | Host/HostWindow.cpp:345-368 | the menu's items are the in-process items then the tree's texts numbered from the base; the array becomes the tree's plugins in menu order |
| HostMenu.HostWindow.GetChosenType | Host/HostWindow.cpp:370-383 | an ID minus 1 inside the in-process list picks that plugin; otherwise an ID minus the base inside the array picks from it; nothing exactly when neither holds |
| HostMenu.HostWindow.MenuItemSelected | Host/HostWindow.cpp:237-299 | 250 clears the graph if there is one; 100-199 reopen recent file ID-100 if there is a graph; 200-204 set the matching sort method and 200-209 save it; any other ID creates the plugin it chooses, if any, and only when there is a graph; the sort method changes only for 200-204 |
| HostMenu.HostWindow.FilesDropped | Host/HostWindow.cpp:550-583 | without a graph or for a single graph file nothing is created; otherwise the found plugins among the first five, in order, so never more than five |
| HostMenu.Present | Host/HostWindow.cpp:580-582 | only descriptions the scan actually produced are kept, never more than were found |
| HostMenu.ItemsOfAppend | Host/HostWindow.cpp:345-368 | the items of two menus joined are the first's items followed by the second's |
| HostMenu.ItemsChooseTheirPlugins | Host/HostWindow.cpp:345-383 | every item of the built menu is chosen back to the plugin it shows: in-process item k to in-process plugin k, known item k to the tree's k-th plugin with the text shown for it |
| HostMenu.PluginIdsAvoidCommandIds | Host/HostWindow.cpp:237-287 | with fewer than 99 in-process plugins, no plugin item's ID is 250 or in 100-209, so choosing it reaches the create branch |
| HostMenu.ProxyNotListedAgain | Host/HostWindow.cpp:357-363 | for any wrapped processor, version and hash, the proxy's description has the in-process format, so it is never among the known plugins shown and never appears twice |

## Left out

- Floating point: samples, gains, phases and read positions are real numbers. Single-precision rounding is not modelled, and neither are the NaN and infinity cases. `floorf` is `Floor`. `fmodf` is C's truncating remainder (`DelayLine.Fmod`). Float-to-int casts truncate toward zero (`DelayLine.Trunc`).
- `sinf` is a function parameter; the model does not interpret it. Bounds on the sine waveform hold under the stated assumption that it stays in [-1, 1].
- Parameter smoothing and binding are not modelled: the smoothed values, the slider and combo-box wrappers, and the value-tree listeners. Each processor reads its parameters once per block, so they are per-block inputs. Only the conversion callbacks are kept: milliseconds to seconds, `value + 2` for the voice count, and `value * (-2) + 1` for the inversion.
- The maximum a slider stores is its raw value in milliseconds; the model takes this as a fact. The capacity formulas are built from it (see "## Findings").
- JUCE's DSP filters are not modelled: the Butterworth and peak coefficient design, the IIR processing in the equalizer's chains, and the sample processing of `ProcessorChain`. Coefficients are opaque inputs; the model covers which stages run and which coefficients they receive.
- Flanger.FlangerProcessor.ProcessBlock: the uninitialised local `phase` (Flanger/PluginProcessor.cpp:180) may hold any float, but the model starts it in [0, 1) only. Start phases outside [0, 1) are not modelled: the LFO does not wrap its phase, so its value leaves [0, 1] (Common/Utils.cpp:18-19), and the read position is then no longer bounded by the line. Phases in [1, 2) come back into [0, 1) after the first `phase -= 1.0f` (Flanger/PluginProcessor.cpp:245-247), but the sample before it is already read with an LFO value that can exceed 1. The finding on Flanger/PluginProcessor.cpp:180 shows that the result depends on this phase.
- `isBusesLayoutSupported` of Flanger, Chorus and Delay is a precondition: at least one input channel. PingPongDelay's check is modelled as `PingPongDelay.LayoutSupported`; its `processBlock` writes channels 0 and 1 unconditionally, so its model requires at least two input channels, which the written check does not ensure (see "## Findings").
- Arpeggiator: `noteDuration`, derived in floating point from the rate and the sample rate, is a positive whole-number input. The note container's header is not part of this model; the container is a sorted set with add and remove by value. MIDI messages other than note-on and note-off are dropped, as the block's MIDI is cleared.
- Audio player editor: painting, layout, the thumbnail, the timer and the file chooser dialog are not modelled. Loading the chosen file is a boolean input. The sliders' initial `setValue` to half the range, and the notification it may cause, are not modelled.
- Case-insensitive comparison folds ASCII letters only; JUCE's full Unicode case folding is not modelled.
- Host window:
  - `KnownPluginList::createTree` and the library's sorting are a function parameter; `HostMenu.PluginTree` is what that call returns.
  - The scan of dropped files is a sequence of optional descriptions.
  - Loading a dropped or recent graph file after the asynchronous save prompt is reduced to the action it requests.
  - Random plugin positions, window state, key mappings and the settings file are left out.
  - A saved sort-method integer outside the enumeration is not modelled.
- PluginInstanceFormat.h is not part of this model, so the format's identifier text is an unspecified constant.
- The descriptions reported by the graph's I/O processors, the project version string and `String::hashCode` come from the library, so they are parameters.
- The proxy's forwarding members (Host/PluginInstanceProxy.h:19-53) only call the inner processor, so they are not modelled. `applyBusLayouts` is modelled, with both processors' answers as inputs. `PluginProxy.WithLayout` takes each side's total channel count as the sum of its buses' counts, which is what the library's `setBusesLayout` leaves behind; the library itself is not part of this model.
- State persistence, processors built only from library calls, the host's plugin scanner process and the code-generation scripts are outside the modelled core.
- The test host's format (`PluginFactory.PluginFormat.TestHost`) takes its constructor list from PluginTestHost/InternalPluginFormat.cpp. Its lookup, callback and type list share `PluginFormat`'s members, which cite Host/PluginInstanceFormat.cpp; the two files have the same code.

## Findings

| source | as written | input that shows it | evidently intended | confidence | as-written member | corrected member |
|---|---|---|---|---|---|---|
| Chorus/PluginProcessor.cpp:217 | the linear kernel assigns `out = delayed0 = frac * (delayed1 - delayed0)`, so the base sample is lost | line [1, 1] read at position 0: the as-written kernel gives 0, the intended one gives 1 | `delayed0 + frac * (delayed1 - delayed0)`, as Flanger's kernel at Flanger/PluginProcessor.cpp:211-218 | high, not executed | DelayLine.ChorusLinearDropsBase | DelayLine.LinearSample |
| Flanger/PluginProcessor.cpp:180 | the local `phase` is declared without a value, so each block starts its sweep from an undefined phase and the stored `mLfoPhase` is never read back | delay 1 ms, width 10 ms, triangle LFO at 48 kHz: the first delay is 288 samples from phase 0 and 528 from phase 0.25 | start each block from the stored phase | high, not executed | Flanger.FirstDelayDependsOnPhase | Flanger.FlangerProcessor.ProcessBlockResumed |
| Flanger/PluginProcessor.cpp:183-252 | the channel loop carries `phase` from one channel into the next, so without stereo each channel starts where the previous one ended | increment 0.25 per sample, one-sample blocks, no stereo: channel 1 starts at phase 0.25 while channel 0 starts at 0 | every channel starts from the block's phase, a quarter cycle ahead in stereo mode | medium, not executed | Flanger.SecondChannelStartsOff | Flanger.IntendedChannelsLocked |
| Flanger/PluginProcessor.cpp:118-119 | the line length multiplies the sliders' raw maxima, which are in milliseconds, by the sample rate | at 48 kHz the line gets 1 920 000 slots, while the longest delay is 1 920 samples | maxima in seconds times the rate, plus one slot | high, not executed | Flanger.CapacityIsThousandfold | Flanger.SizedCapacity |
| Chorus/PluginProcessor.cpp:106-107 | the line length multiplies the sliders' raw maxima, which are in milliseconds, by the sample rate | at 48 kHz the line gets 4 800 001 slots, while delay plus width is at most 4 800 samples | maxima in seconds times the rate, plus one slot | high, not executed | Chorus.CapacityIsThousandfold | Chorus.SizedCapacity |
| Chorus/PluginProcessor.cpp:198 | `phase + phaseOffset` goes to the LFO unwrapped, and the LFO does not wrap its phase | five voices, voice 3, phase 0.75, triangle, delay and width 50 ms at 48 kHz: the voice reads 6 000 samples back, beyond delay plus width (4 800) | wrap the phase into [0, 1) before the LFO, as the phase itself is after every sample | high, not executed | Chorus.UnwrappedVoiceOvershoots | Chorus.WrappedVoiceInSweep |
| Arpeggiator/Source/PluginProcessor.cpp:158 | a note-off is sent only when `lastNoteValue > 0`, so a sounding MIDI note 0 is never released | note 0 alone held, a step due within the block: note 0 is played again without a note-off and stays recorded as sounding | `lastNoteValue >= 0`; -1 already marks "nothing sounding" | medium, not executed | Arpeggiator.NoteZeroNeverReleased | Arpeggiator.IntendedStepReleasesEveryNote |
| PingPongDelay/PluginProcessor.cpp:135-146 | `isBusesLayoutSupported` accepts a mono main bus, but `processBlock` takes write pointers to channels 0 and 1 of both the buffer and the delay buffer | mono in and mono out: accepted, yet the buffer has a single channel, so `getWritePointer(1)` is out of range | accept stereo only | high, not executed | PingPongDelay.MonoLayoutAccepted | PingPongDelay.StereoLayoutFeedsPair |
