# go-vtm engine, modelled in Dafny

go-vtm is a tracker synthesiser. A module says which notes each channel plays on each row of a
pattern, and in which order the patterns follow. A player steps through the rows one audio sample
at a time. On each row it starts and stops notes in a polyphonic voice pool per channel. Each voice
is either a subtractive voice (oscillator times ADSR envelope) or an FM instrument (two to four phase
operators with their own envelopes, routed by a fixed algorithm). The mixed samples are written as
a 16-bit stereo PCM WAVE file.

This project models that engine and proves properties of the model. It covers:

- the note-name codec (`SynthNote`);
- the ADSR envelope state machine (`SynthEnvelope`);
- the oscillator (`SynthOscillator`) and the FM operator (`SynthFMOperator`);
- the FM instrument with its routing table and presets (`SynthFMInstrument`);
- the voice with its subtractive/FM dispatch (`SynthVoice`);
- the per-channel voice allocator (`AudioVoiceAllocator`);
- the sequencer and player (`AudioPlayer`);
- the `.vtm` module text loader and saver (`Tracker`);
- the WAVE writer and the render loop (`AudioWav`).

`GoMath` holds the few pieces of the Go runtime the engine leans on: `int(float64)` truncation, the
`math.Mod(x, 1)` remainder, and a `Libm` record. `Libm` stands for `math.Sin` and `math.Pow`, which
the model takes as parameters and never interprets.

Each Go type whose methods update fields becomes two things:

- a datatype of its fields, whose member functions say what each method does to that state;
- a `class` with the same fields, whose methods change them in place and ensure
  `Model() == old(Model()).Op(...)`.

The lemmas about the datatype then carry over to the object. Loops in the Go code are `while`
loops with invariants in the class methods: the operator loops of the FM instrument, the voice
scans of the allocator, the channel loop of `processRow`, the `Stream` buffer fill, the loader's
line loop, the saver's writers and the render loop. Every real-valued quantity is a `real`.

## Model

| member | source | states |
|---|---|---|
| GoMath.TruncBounds | audio/player.go:27-31 | `int(x)` rounds toward zero: for x ≥ 0 the result is the floor, for x < 0 the ceiling |
| GoMath.ModOne | synth/oscillator.go:61 | `math.Mod(x, 1)` keeps the sign of x, has magnitude below 1 and differs from x by a whole number |
| SynthNote.ParseNote | synth/note.go:32-59 | the result is -1 or a semitone in [0, 108] |
| SynthNote.ShortStringIsNotANote | synth/note.go:33-35 | a string shorter than three bytes is not a note (-1) |
| SynthNote.OnlyFirstThreeRead | synth/note.go:32-59 | characters after the third never change the result |
| SynthNote.ParseNoteAscii | synth/note.go:37-58 | on ASCII text a parse succeeds iff the first character is one of C D E F G A B and the third is '0'..'8'. Its value is octave·12 + letter value, plus 1 exactly when the second character is '#' |
| SynthNote.FormatNote | synth/note.go:62-72 | a negative note prints as "---"; otherwise three characters whose first two are the note's name within the octave |
| SynthNote.FormatThenParse | synth/note.go:32-72 | for 0 ≤ n ≤ 107 the printed name is three bytes long and parses back to n |
| SynthNote.ParseThenFormat | synth/note.go:32-72 | a three-character name from the name table with an octave digit 0..8 prints back unchanged |
| SynthNote.AsciiBytes | synth/note.go:33 | an ASCII string's UTF-8 bytes are its characters, so `len(s)` counts characters there |
| SynthEnvelope.NewEnvelope | synth/envelope.go:28-38 | a new envelope keeps its four settings and rate, and is in stage Off with level 0 |
| SynthEnvelope.EnvState.Trigger | synth/envelope.go:41-44 | from any stage: stage Attack, count 0, level untouched, and the envelope is active |
| SynthEnvelope.EnvState.Release | synth/envelope.go:47-52 | no effect in Off; otherwise stage Release with count 0, level untouched |
| SynthEnvelope.EnvState.Next | synth/envelope.go:55-109 | a step never changes the settings |
| SynthEnvelope.NextLevelInRange | synth/envelope.go:55-109 | with a sustain level in [0, 1], every level a step produces lies in [0, 1] |
| SynthEnvelope.AttackRamp | synth/envelope.go:57-70 | during the attack of truncated length A, the call made at count k returns k/A and moves the count to k + 1 |
| SynthEnvelope.AttackEnds | synth/envelope.go:57-70 | A + 1 calls after a trigger (1 call when A ≤ 0) the envelope is in Decay at level 1 with count 0 |
| SynthEnvelope.DecayRamp | synth/envelope.go:72-84 | during the decay of length D, the call at count k returns 1 + (k/D)(sustain − 1) |
| SynthEnvelope.DecayEnds | synth/envelope.go:72-84 | D + 1 calls into the decay the envelope sits in Sustain at the sustain level |
| SynthEnvelope.SustainHolds | synth/envelope.go:86-87 | Sustain stays Sustain and returns the sustain level for any number of calls |
| SynthEnvelope.ReleaseRamp | synth/envelope.go:89-102 | during the release of length R, the call at count k returns sustain·(1 − k/R), starting from the sustain level and not from the level held when released |
| SynthEnvelope.ReleaseEnds | synth/envelope.go:89-102 | R + 1 calls into the release the envelope is Off at level 0 |
| SynthEnvelope.OffStaysOff | synth/envelope.go:104-105 | Off stays Off and returns 0 |
| SynthEnvelope.NoteLifetime | synth/envelope.go:41-109 | trigger, attack and decay reach Sustain at the sustain level; a release then reaches Off after its length plus one call |
| SynthEnvelope.RunAdd | synth/envelope.go:55-109 | running a + b steps is running a steps then b steps |
| SynthEnvelope.Envelope.constructor | synth/envelope.go:28-38 | the object starts in the state `NewEnvelope` describes |
| SynthEnvelope.Envelope.Trigger | synth/envelope.go:41-44 | the fields change as `EnvState.Trigger` says |
| SynthEnvelope.Envelope.Release | synth/envelope.go:47-52 | the fields change as `EnvState.Release` says |
| SynthEnvelope.Envelope.Next | synth/envelope.go:55-109 | the fields step as `EnvState.Next` says and the returned value is the new level |
| SynthEnvelope.Envelope.IsActive | synth/envelope.go:112-114 | active iff the stage is not Off |
| SynthOscillator.NewOscillator | synth/oscillator.go:25-31 | a new oscillator has the given waveform, phase 0 and frequency 0 |
| SynthOscillator.OscState.SetFrequency | synth/oscillator.go:34-36 | only the frequency changes; phase and waveform stay |
| SynthOscillator.OscState.Reset | synth/oscillator.go:75-77 | the phase returns to 0; frequency and waveform stay |
| SynthOscillator.OscState.Next | synth/oscillator.go:65-69 | a step changes only the phase |
| SynthOscillator.WaveformInRange | synth/oscillator.go:42-62 | for a phase in [0, 1) every waveform lies in [-1, 1]. Square is ±1, saw and noise stay below 1, and an unknown waveform is silent |
| SynthOscillator.SquareHalves | synth/oscillator.go:44-48 | square is +1 exactly on the first half of the cycle |
| SynthOscillator.TrianglePeaks | synth/oscillator.go:51-56 | triangle is -1 at phase 0, +1 at phase 0.5, and symmetric about the half cycle |
| SynthOscillator.PhaseStaysInCycle | synth/oscillator.go:65-69 | with the phase in [0, 1) and an increment in [0, 1], the next phase is in [0, 1) |
| SynthOscillator.PhaseEscapesAboveSampleRate | synth/oscillator.go:65-69 | the phase wraps only once per step: at 3 Hz sampled at 2 Hz it reaches exactly 1 and the saw then outputs 1 |
| SynthOscillator.PhaseAfterSteps | synth/oscillator.go:65-69 | at an increment of 1/m the phase after j ≤ m steps is j/m, and it is back to 0 after m steps |
| SynthOscillator.Oscillator.constructor | synth/oscillator.go:25-31 | the object starts as `NewOscillator` |
| SynthOscillator.Oscillator.SetFrequency | synth/oscillator.go:34-36 | the fields change as `OscState.SetFrequency` says |
| SynthOscillator.Oscillator.Next | synth/oscillator.go:39-72 | returns the waveform at the phase before the advance, then advances the phase |
| SynthOscillator.Oscillator.Reset | synth/oscillator.go:75-77 | the fields change as `OscState.Reset` says |
| SynthFMOperator.NewFMOperator | synth/fm_operator.go:17-25 | phase 0, frequency 0, ratio 1, output level 1, the default envelope, inactive |
| SynthFMOperator.OpState.SetEnvelope | synth/fm_operator.go:28-30 | the envelope is replaced by a new one (stage Off) with the given settings; nothing else changes |
| SynthFMOperator.OpState.SetRatio | synth/fm_operator.go:33-35 | only the ratio changes |
| SynthFMOperator.OpState.SetOutputLevel | synth/fm_operator.go:38-40 | only the output level changes |
| SynthFMOperator.OpState.SetFrequency | synth/fm_operator.go:43-45 | the stored frequency is the argument times the ratio current at the call |
| SynthFMOperator.OpState.Trigger | synth/fm_operator.go:48-51 | phase 0 and a triggered envelope, so the operator is active |
| SynthFMOperator.OpState.Release | synth/fm_operator.go:54-56 | only the envelope is released; the phase stays |
| SynthFMOperator.OpState.Next | synth/fm_operator.go:60-75 | a step advances the envelope exactly once and changes nothing but phase and envelope |
| SynthFMOperator.OpState.Reset | synth/fm_operator.go:83-87 | phase 0, envelope Off at level 0 with its settings kept; the operator is silent |
| SynthFMOperator.PhaseStaysInCycle | synth/fm_operator.go:67-72 | whenever phase plus increment is non-negative, the floor subtraction leaves the phase in [0, 1) |
| SynthFMOperator.OutputBounded | synth/fm_operator.go:60-75 | with a bounded sine and a sustain level in [0, 1], the output lies within ± the output level |
| SynthFMOperator.InactiveIsSilent | synth/fm_operator.go:60-80 | an inactive operator outputs 0 and stays inactive |
| SynthFMOperator.ResetSilences | synth/fm_operator.go:83-87 | after `Reset` the operator outputs 0 |
| SynthFMOperator.FMOperator.constructor | synth/fm_operator.go:17-25 | the object starts as `NewFMOperator`, owning a fresh envelope |
| SynthFMOperator.FMOperator.SetEnvelope | synth/fm_operator.go:28-30 | the state changes as `OpState.SetEnvelope` says, with a freshly allocated envelope object |
| SynthFMOperator.FMOperator.SetRatio | synth/fm_operator.go:33-35 | the state changes as `OpState.SetRatio` says |
| SynthFMOperator.FMOperator.SetOutputLevel | synth/fm_operator.go:38-40 | the state changes as `OpState.SetOutputLevel` says |
| SynthFMOperator.FMOperator.SetFrequency | synth/fm_operator.go:43-45 | the state changes as `OpState.SetFrequency` says |
| SynthFMOperator.FMOperator.Trigger | synth/fm_operator.go:48-51 | the state changes as `OpState.Trigger` says |
| SynthFMOperator.FMOperator.Release | synth/fm_operator.go:54-56 | the state changes as `OpState.Release` says |
| SynthFMOperator.FMOperator.Next | synth/fm_operator.go:60-75 | returns sin(2π·phase + m)·envelope·level from the phase before the advance, then steps as `OpState.Next` |
| SynthFMOperator.FMOperator.IsActive | synth/fm_operator.go:78-80 | active iff the owned envelope is |
| SynthFMOperator.FMOperator.Reset | synth/fm_operator.go:83-87 | the state changes as `OpState.Reset` says |
| SynthFMInstrument.NewFMInstrument | synth/fm_instrument.go:37-50 | exactly n default operators, modulation index 2, volume 1, the given algorithm, inactive |
| SynthFMInstrument.InstState.SetOperatorRatio | synth/fm_instrument.go:53-57 | only operator `opIndex` changes, by `SetRatio`; an index past the end changes nothing |
| SynthFMInstrument.InstState.SetOperatorEnvelope | synth/fm_instrument.go:60-64 | only operator `opIndex` changes, by `SetEnvelope`; an index past the end changes nothing |
| SynthFMInstrument.InstState.SetOperatorLevel | synth/fm_instrument.go:67-71 | only operator `opIndex` changes, by `SetOutputLevel`; an index past the end changes nothing |
| SynthFMInstrument.InstState.SetModulationIndex | synth/fm_instrument.go:74-76 | only the modulation index changes |
| SynthFMInstrument.InstState.NoteOn | synth/fm_instrument.go:79-88 | volume becomes the velocity. Every operator gets frequency base·ratio from the same base, phase 0 and a triggered envelope. The instrument is active iff it has operators |
| SynthFMInstrument.InstState.NoteOff | synth/fm_instrument.go:91-95 | every operator is released |
| SynthFMInstrument.InstState.Used | synth/fm_instrument.go:99-145 | the operators an algorithm drives: 2, 2, 3 or 4 when enough exist, none otherwise or for an unknown algorithm |
| SynthFMInstrument.InstState.Next | synth/fm_instrument.go:98-148 | each used operator advances exactly once and the unused ones not at all |
| SynthFMInstrument.UnroutedIsSilent | synth/fm_instrument.go:99-101 | with no operators, too few for the algorithm, or an unknown algorithm, the output is 0 and nothing advances |
| SynthFMInstrument.InactiveIsSilent | synth/fm_instrument.go:98-158 | an inactive instrument outputs 0 and stays inactive |
| SynthFMInstrument.MixBounded | synth/fm_instrument.go:105-145 | with levels in [0, 1] every routing's mix lies in [-1, 1] |
| SynthFMInstrument.OutputBounded | synth/fm_instrument.go:147 | the final output is the mix scaled by the stored volume, so it lies within ± volume |
| SynthFMInstrument.NoteOnActivates | synth/fm_instrument.go:79-158 | a note-on makes an instrument with at least one operator active |
| SynthFMInstrument.PianoFMInstrument | synth/fm_instrument.go:161-188 | the piano preset has 4 operators and the FM4OpPiano routing |
| SynthFMInstrument.ElectricPianoFMInstrument | synth/fm_instrument.go:191-206 | the electric piano preset has 2 operators and the FM2OpSimple routing |
| SynthFMInstrument.BassFMInstrument | synth/fm_instrument.go:209-230 | the bass preset has 3 operators and the FM3OpStack routing |
| SynthFMInstrument.LeadFMInstrument | synth/fm_instrument.go:233-249 | the lead preset has 2 operators and the FM2OpSimple routing |
| SynthFMInstrument.BrassFMInstrument | synth/fm_instrument.go:252-273 | the brass preset has 3 operators and the FM3OpStack routing |
| SynthFMInstrument.BellFMInstrument | synth/fm_instrument.go:276-292 | the bell preset has 2 operators and the FM2OpSimple routing |
| SynthFMInstrument.ArpFMInstrument | synth/fm_instrument.go:295-311 | the arp preset has 2 operators and the FM2OpSimple routing |
| SynthFMInstrument.FMInstrument.constructor | synth/fm_instrument.go:37-50 | the object starts as `NewFMInstrument` |
| SynthFMInstrument.FMInstrument.SetOperatorRatio | synth/fm_instrument.go:53-57 | the state changes as `InstState.SetOperatorRatio` says |
| SynthFMInstrument.FMInstrument.SetOperatorEnvelope | synth/fm_instrument.go:60-64 | the state changes as `InstState.SetOperatorEnvelope` says |
| SynthFMInstrument.FMInstrument.SetOperatorLevel | synth/fm_instrument.go:67-71 | the state changes as `InstState.SetOperatorLevel` says |
| SynthFMInstrument.FMInstrument.SetModulationIndex | synth/fm_instrument.go:74-76 | the state changes as `InstState.SetModulationIndex` says |
| SynthFMInstrument.FMInstrument.NoteOn | synth/fm_instrument.go:79-88 | the operator loop gives the state `InstState.NoteOn` describes |
| SynthFMInstrument.FMInstrument.NoteOff | synth/fm_instrument.go:91-95 | the operator loop gives the state `InstState.NoteOff` describes |
| SynthFMInstrument.FMInstrument.Next | synth/fm_instrument.go:98-148 | returns the routed, volume-scaled output and steps as `InstState.Next` |
| SynthFMInstrument.FMInstrument.NextSimple | synth/fm_instrument.go:106-112 | op1 is stepped first and op0 receives op1·index |
| SynthFMInstrument.FMInstrument.NextParallel | synth/fm_instrument.go:114-118 | the mix is the average of op0 and op1, each stepped once |
| SynthFMInstrument.FMInstrument.NextStack | synth/fm_instrument.go:120-127 | op2 feeds op1, which feeds op0, each scaled by the index and stepped in that order |
| SynthFMInstrument.FMInstrument.NextPiano | synth/fm_instrument.go:129-144 | op3 feeds op2 at half the index. Op0 receives op2·index + op1·index·0.3 |
| SynthFMInstrument.FMInstrument.IsActive | synth/fm_instrument.go:151-158 | the read-only scan answers "some operator is active" |
| SynthFMInstrument.NewPianoFMInstrument | synth/fm_instrument.go:161-188 | the constructor-plus-setters sequence builds the piano preset |
| SynthFMInstrument.NewElectricPianoFMInstrument | synth/fm_instrument.go:191-206 | builds the electric piano preset |
| SynthFMInstrument.NewFMBassFMInstrument | synth/fm_instrument.go:209-230 | builds the bass preset |
| SynthFMInstrument.NewFMLeadFMInstrument | synth/fm_instrument.go:233-249 | builds the lead preset |
| SynthFMInstrument.NewFMBrassFMInstrument | synth/fm_instrument.go:252-273 | builds the brass preset |
| SynthFMInstrument.NewFMBellFMInstrument | synth/fm_instrument.go:276-292 | builds the bell preset |
| SynthFMInstrument.NewFMArpFMInstrument | synth/fm_instrument.go:295-311 | builds the arp preset |
| SynthVoice.NewVoice | synth/voice.go:19-28 | a subtractive voice with a new oscillator and the default envelope, volume 1, idle |
| SynthVoice.NewFMVoice | synth/voice.go:31-39 | an FM voice around the given instrument, volume 1, flag clear, active exactly when the instrument is |
| SynthVoice.NewPianoVoice | synth/voice.go:42-44 | an idle FM voice with the piano preset |
| SynthVoice.NewElectricPianoVoice | synth/voice.go:47-49 | an idle FM voice with the electric piano preset |
| SynthVoice.VoiceState.SetInstrument | synth/voice.go:52-61 | no effect on an FM voice. On a subtractive voice it sets the waveform and the four envelope settings, and keeps the envelope's stage, level and count |
| SynthVoice.VoiceState.SetFMInstrument | synth/voice.go:64-67 | the engine becomes that FM instrument; nothing else changes |
| SynthVoice.VoiceState.NoteOn | synth/voice.go:70-81 | sets the volume and the active flag. FM delegates `NoteOn(note, volume)`; subtractive sets the oscillator frequency and triggers the envelope |
| SynthVoice.VoiceState.NoteOff | synth/voice.go:84-90 | releases the engine and leaves flag, volume and activity unchanged |
| SynthVoice.VoiceState.Next | synth/voice.go:93-122 | a step keeps the volume, rate and engine kind |
| SynthVoice.IdleIsSilent | synth/voice.go:93-111 | an idle voice outputs 0 and does not advance |
| SynthVoice.ActiveFollowsEngine | synth/voice.go:100-118 | after an advancing step the voice is active iff its engine is, and a clear flag stays clear |
| SynthVoice.FMVolumeAppliedOnce | synth/voice.go:100-106 | after a note-on the FM output is the instrument mix times the velocity, with the voice volume not applied again |
| SynthVoice.SubtractiveBounded | synth/voice.go:120 | a subtractive voice outputs osc·env·volume, which lies within ± volume |
| SynthVoice.NoteOffThenOn | synth/voice.go:70-130 | a note-off keeps activity and a later note-on always activates |
| SynthVoice.Voice.constructor | synth/voice.go:19-28 | the object is in the state `NewVoice` describes, owning a fresh oscillator and envelope |
| SynthVoice.Voice.FromFM | synth/voice.go:31-39 | the object is in the state `NewFMVoice` describes and shares the given instrument |
| SynthVoice.Voice.SetInstrument | synth/voice.go:52-61 | the state changes as `VoiceState.SetInstrument` says |
| SynthVoice.Voice.SetFMInstrument | synth/voice.go:64-67 | the state changes as `VoiceState.SetFMInstrument` says |
| SynthVoice.Voice.NoteOn | synth/voice.go:70-81 | the state changes as `VoiceState.NoteOn` says |
| SynthVoice.Voice.NoteOff | synth/voice.go:84-90 | the state changes as `VoiceState.NoteOff` says |
| SynthVoice.Voice.Next | synth/voice.go:93-122 | returns the pre-step output and steps as `VoiceState.Next` |
| SynthVoice.Voice.IsActive | synth/voice.go:125-130 | the flag or the engine's activity |
| SynthVoice.NewPianoVoiceObject | synth/voice.go:42-44 | builds the piano voice |
| SynthVoice.NewElectricPianoVoiceObject | synth/voice.go:47-49 | builds the electric piano voice |
| AudioVoiceAllocator.Preset | audio/voice_allocator.go:27-44 | each FM preset name chooses its preset instrument |
| AudioVoiceAllocator.PresetDefault | audio/voice_allocator.go:42-43 | an unknown preset name falls back to the lead preset |
| AudioVoiceAllocator.PoolVoice | audio/voice_allocator.go:23-50 | a pooled voice is idle at volume 1, with the channel instrument's FM preset or waveform and envelope |
| AudioVoiceAllocator.NewVoiceAllocator | audio/voice_allocator.go:19-61 | maxVoices identical idle voices, an empty map and an empty list, consistent |
| AudioVoiceAllocator.FirstInactive | audio/voice_allocator.go:72-80 | the first inactive voice in pool order, or the pool size when all are active |
| AudioVoiceAllocator.AllocState.Slot | audio/voice_allocator.go:64-101 | the voice a note-on uses always lies in the pool |
| AudioVoiceAllocator.AllocState.NoteOn | audio/voice_allocator.go:64-101 | keeps consistency. The note is mapped to its slot and that voice alone receives the note-on and becomes active |
| AudioVoiceAllocator.NoteOnRetriggers | audio/voice_allocator.go:66-69 | an already-sounding note retriggers its own voice; map and list are unchanged |
| AudioVoiceAllocator.NoteOnTakesFirstFree | audio/voice_allocator.go:72-100 | a new note takes the first inactive voice and goes to the tail of the list |
| AudioVoiceAllocator.NoteOnStealsOldest | audio/voice_allocator.go:83-95 | with every voice active, the oldest note loses its voice to the new note. Every other mapping is kept and the list drops its head |
| AudioVoiceAllocator.NoteOnFallsBackToFirstVoice | audio/voice_allocator.go:92-95 | with every voice active and an empty list, voice 0 is used |
| AudioVoiceAllocator.AllocState.NoteOff | audio/voice_allocator.go:104-116 | an unmapped note changes nothing. A mapped one releases its voice and leaves the map and the list, consistency kept |
| AudioVoiceAllocator.NoteOffKeepsOrder | audio/voice_allocator.go:108-114 | only that one note leaves the list; the others keep their order |
| AudioVoiceAllocator.RemoveFirstMembers | audio/voice_allocator.go:108-114 | removing a note from a duplicate-free list removes exactly that note |
| AudioVoiceAllocator.AllocState.AllNotesOff | audio/voice_allocator.go:119-125 | every voice is released; map and list are empty |
| AudioVoiceAllocator.AllocState.Next | audio/voice_allocator.go:128-145 | a step advances the voices and keeps map, list and consistency |
| AudioVoiceAllocator.SilentPoolMixesZero | audio/voice_allocator.go:139-141 | with no active voice the mix is 0 |
| AudioVoiceAllocator.AnyActiveCount | audio/voice_allocator.go:131-138 | the active count is positive iff some voice reports active |
| AudioVoiceAllocator.MixBounded | audio/voice_allocator.go:128-145 | the mix, a sum over active voices divided by their count, lies within the bound of the active voices' outputs |
| AudioVoiceAllocator.AllocState.GetVoice | audio/voice_allocator.go:163-168 | a voice for an index inside the pool, none otherwise |
| AudioVoiceAllocator.AllocState.GetVoiceForNote | audio/voice_allocator.go:184-186 | a voice iff the note is sounding, and then its mapped voice |
| AudioVoiceAllocator.AllocState.SetVoiceNote | audio/voice_allocator.go:190-194 | only that voice receives a note-on; map and list bypassed; out of range changes nothing |
| AudioVoiceAllocator.AllocState.ReleaseVoice | audio/voice_allocator.go:197-201 | only that voice is released; map and list bypassed; out of range changes nothing |
| AudioVoiceAllocator.AllocState.PlayChord | audio/voice_allocator.go:209-213 | consistency kept; the last chord note is sounding |
| AudioVoiceAllocator.ChordFillsPool | audio/voice_allocator.go:209-213 | on an idle pool a chord of distinct notes that fits takes voices 0, 1, … in order, and the list is the chord |
| AudioVoiceAllocator.ChordOverflowStealsFirst | audio/voice_allocator.go:209-213 | one note more than the pool steals the first note's voice (voice 0) for the last |
| AudioVoiceAllocator.FiveNotesOnFourVoices | audio/voice_allocator.go:75-100 | five distinct notes on an idle four-voice pool leave notes 2..5 in order, the first absent |
| AudioVoiceAllocator.AllocState.ReleaseChord | audio/voice_allocator.go:216-220 | consistency kept |
| AudioVoiceAllocator.ReleaseChordUnmaps | audio/voice_allocator.go:216-220 | every chord note is unmapped and every other note keeps its voice |
| AudioVoiceAllocator.ChordOnThenOff | audio/voice_allocator.go:209-220 | releasing a chord just played on an idle pool empties map and list |
| AudioVoiceAllocator.MappedCount | audio/voice_allocator.go:179-181 | the list length equals the number of mapped notes |
| AudioVoiceAllocator.VoiceAllocator.constructor | audio/voice_allocator.go:19-61 | the pool-building loop yields `NewVoiceAllocator` |
| AudioVoiceAllocator.VoiceAllocator.NoteOn | audio/voice_allocator.go:64-101 | the map lookup, free-voice scan and steal give `AllocState.NoteOn` |
| AudioVoiceAllocator.VoiceAllocator.NoteOff | audio/voice_allocator.go:104-116 | the list scan and removal give `AllocState.NoteOff` |
| AudioVoiceAllocator.VoiceAllocator.AllNotesOff | audio/voice_allocator.go:119-125 | the release loop gives `AllocState.AllNotesOff` |
| AudioVoiceAllocator.VoiceAllocator.Next | audio/voice_allocator.go:128-145 | returns the mix of the active voices and advances every voice |
| AudioVoiceAllocator.VoiceAllocator.IsActive | audio/voice_allocator.go:148-155 | some voice in the pool is active |
| AudioVoiceAllocator.VoiceAllocator.GetVoices | audio/voice_allocator.go:158-160 | the pool |
| AudioVoiceAllocator.VoiceAllocator.GetVoice | audio/voice_allocator.go:163-168 | as `AllocState.GetVoice` |
| AudioVoiceAllocator.VoiceAllocator.GetActiveNotes | audio/voice_allocator.go:171-176 | a copy of the oldest-first list |
| AudioVoiceAllocator.VoiceAllocator.GetActiveVoiceCount | audio/voice_allocator.go:179-181 | the list length, which is also the number of mapped notes |
| AudioVoiceAllocator.VoiceAllocator.GetVoiceForNote | audio/voice_allocator.go:184-186 | as `AllocState.GetVoiceForNote` |
| AudioVoiceAllocator.VoiceAllocator.SetVoiceNote | audio/voice_allocator.go:190-194 | as `AllocState.SetVoiceNote` |
| AudioVoiceAllocator.VoiceAllocator.ReleaseVoice | audio/voice_allocator.go:197-201 | as `AllocState.ReleaseVoice` |
| AudioVoiceAllocator.VoiceAllocator.GetMaxVoices | audio/voice_allocator.go:204-206 | the pool size given at construction |
| AudioVoiceAllocator.VoiceAllocator.PlayChord | audio/voice_allocator.go:209-213 | note-ons in chord order, as `AllocState.PlayChord` |
| AudioVoiceAllocator.VoiceAllocator.ReleaseChord | audio/voice_allocator.go:216-220 | note-offs in chord order, as `AllocState.ReleaseChord` |
| AudioPlayer.SamplesPerRow | audio/player.go:27-31 | the truncation of 60/tempo/4·rate |
| AudioPlayer.SamplesPerRowAt120 | audio/player.go:27-31 | 5512 at 120 BPM and 44100 Hz |
| AudioPlayer.NewPlayer | audio/player.go:22-71 | cursor at the start. 8 channels, each with 4 idle voices and an empty map and list, using module instrument i or the default square instrument |
| AudioPlayer.Tick | audio/player.go:94-114 | the cursor never moves backwards |
| AudioPlayer.TickMoves | audio/player.go:94-114 | a counter step stays on its position. Otherwise it happens at the last sample of a pattern's last row, resets row and counter and moves on one position. `done` is set exactly when the position reaches the sequence end |
| AudioPlayer.CounterInRange | audio/player.go:94-98 | the sample counter stays in [0, samplesPerRow) |
| AudioPlayer.DoneIsFinal | audio/player.go:75-77 | a finished cursor never moves |
| AudioPlayer.StuckNeverFinishes | audio/player.go:99-113 | on an invalid sequence entry position and `done` never change |
| AudioPlayer.TicksAdd | audio/player.go:74-117 | a + b samples are a samples then b samples |
| AudioPlayer.PatternTicks | audio/player.go:94-114 | from row r of a pattern lasting max(Rows, 1) rows, samplesPerRow·(that − r) samples finish the pattern, and none of them sees `done` |
| AudioPlayer.SequenceTicks | audio/player.go:94-114 | from a position whose entries all name patterns, samplesPerRow·Σmax(Rows, 1) over the remaining entries reach `done`, exactly then |
| AudioPlayer.FinishesExactly | audio/player.go:74-117 | from the start of a non-empty sequence of valid entries, `done` first holds after max(samplesPerRow, 1)·Σmax(Rows, 1) samples, zero and negative values included |
| AudioPlayer.TickRowLength | audio/player.go:94-95 | a samplesPerRow of 0 or less moves the cursor exactly as a samplesPerRow of 1 |
| AudioPlayer.TicksRowLength | audio/player.go:94-95 | the same holds for any number of samples |
| AudioPlayer.FourRowsAt120 | audio/player.go:27-117 | one 4-row pattern at 120 BPM and 44100 Hz finishes after exactly 4·5512 samples |
| AudioPlayer.Velocity | audio/player.go:139-142 | a cell's volume, with 1 substituted for 0 |
| AudioPlayer.NonNegativeMembers | audio/player.go:148-155 | the chord pitches played are exactly the non-negative ones |
| AudioPlayer.TriggerCell | audio/player.go:137-159 | a cell's triggers keep the allocator consistent |
| AudioPlayer.TriggerNote | audio/player.go:137-154 | a note ≥ 0 is a note-on of the note then of each chord pitch ≥ 0, at the cell velocity |
| AudioPlayer.TriggerNoteOff | audio/player.go:155-158 | a -2 cell releases every voice and empties map and list |
| AudioPlayer.TriggerRest | audio/player.go:137-159 | any other negative note changes nothing |
| AudioPlayer.PlayerState.ProcessRow | audio/player.go:120-162 | out of range position or pattern changes nothing. Otherwise only channels below both counts and rows inside the channel trigger their cell, and only the allocators change |
| AudioPlayer.ProcessRowCells | audio/player.go:133-161 | on a pattern, every channel's allocator receives exactly its row cell |
| AudioPlayer.PlayerState.Triggered | audio/player.go:80-82 | a row is processed only when the counter is 0 and the player runs; only the allocators change |
| AudioPlayer.PlayerState.Next | audio/player.go:74-117 | the cursor takes one tick and settings stay; once done nothing changes |
| AudioPlayer.DoneIsSilent | audio/player.go:75-77 | a finished player returns 0 and stays as it is |
| AudioPlayer.MidRowOnlyAdvances | audio/player.go:80-91 | between rows a sample only advances every allocator |
| AudioPlayer.SampleBounded | audio/player.go:85-91 | the sample, an average over channels, lies within the bound of the active voices' outputs |
| AudioPlayer.Played | audio/player.go:74-117 | k samples move the cursor by k ticks and keep the module and rate |
| AudioPlayer.PlayerFinishesExactly | audio/player.go:22-117 | a new player of a non-empty sequence of valid entries finishes after exactly max(samplesPerRow, 1)·Σmax(Rows, 1) samples |
| AudioPlayer.ReplayAfterReset | audio/player.go:189-194 | `Reset` keeps the allocators and the song then plays again for the same max(samplesPerRow, 1)·Σmax(Rows, 1) samples |
| AudioPlayer.StreamRun | audio/player.go:197-208 | each frame is the player's sample on both sides; the stream stops at `done` or when the buffer is full |
| AudioPlayer.StreamMeans | audio/player.go:197-208 | frame j is sample j of the song on both sides. A false result means the song finished after the frames written |
| AudioPlayer.PlayCell | audio/player.go:137-159 | the trigger statement sequence gives `TriggerCell` |
| AudioPlayer.AdvanceAll | audio/player.go:85-91 | every allocator takes one step |
| AudioPlayer.Player.constructor | audio/player.go:22-71 | the object is the state `NewPlayer` describes |
| AudioPlayer.Player.NewAllocators | audio/player.go:33-58 | the allocator-building loop gives one allocator per channel with its instrument |
| AudioPlayer.Player.Next | audio/player.go:74-117 | returns the sample and steps as `PlayerState.Next` |
| AudioPlayer.Player.MixChannels | audio/player.go:85-91 | the channel loop sums allocator mixes and divides by the channel count |
| AudioPlayer.Player.AdvanceCursor | audio/player.go:94-114 | the counter code moves the cursor as `Tick` |
| AudioPlayer.Player.ProcessRow | audio/player.go:120-162 | the channel loop gives `PlayerState.ProcessRow`, cursor untouched |
| AudioPlayer.Player.GetChannelVoices | audio/player.go:166-171 | the channel's allocator when the channel exists, none otherwise |
| AudioPlayer.Player.GetChannelCount | audio/player.go:174-176 | the number of allocators |
| AudioPlayer.Player.GetMaxPolyphony | audio/player.go:179-181 | the polyphony |
| AudioPlayer.Player.IsDone | audio/player.go:184-186 | the `done` flag |
| AudioPlayer.Player.Reset | audio/player.go:189-194 | the cursor returns to the start; the allocators are untouched |
| AudioPlayer.Player.Stream | audio/player.go:197-208 | the buffer receives `StreamRun`'s frames; the rest of the buffer is untouched |
| Tracker.ToUpper | tracker/tracker.go:190 | the ASCII letters a–z are upper-cased one for one, every other character kept (ASCII case only) |
| Tracker.ToUpperIdempotent | tracker/tracker.go:190 | upper-casing twice is upper-casing once |
| Tracker.AtoiFormatInt | tracker/tracker.go:97-100 | a tempo printed with `%d` reads back as the same integer |
| Tracker.FieldsUnwords | tracker/tracker.go:84-94 | joining words with single spaces and splitting on white space gives the words back |
| Tracker.FieldsTrim | tracker/tracker.go:77-84 | trimming a line first does not change its tokens |
| Tracker.WaveTypeRoundTrip | tracker/tracker.go:287-302 | the five waveforms print and parse back to themselves; any other prints as SQUARE |
| Tracker.ParseWaveTypeIgnoresCase | tracker/tracker.go:189-204 | ASCII case does not matter and the result is always one of the five kinds, Square by default |
| Tracker.ParseTrackerNote | tracker/tracker.go:206-224 | instrument 0, volume 1, no effect, no chord; the note is -2, -1 or a semitone in [0, 108] |
| Tracker.ParseTrackerNoteCases | tracker/tracker.go:206-224 | "---", "..", "..." are rests, "===", "OFF", "off" note-offs, and every other token is `ParseNote` |
| Tracker.NewPattern | tracker/tracker.go:136-151 | r rows of c channels all rests; the Go runtime panics on a negative count |
| Tracker.ParamsKeys | tracker/tracker.go:127-132 | a key is a parameter iff some field has exactly one '=' before which it stands; the last such field wins |
| Tracker.LoadLine | tracker/tracker.go:89-183 | every command keeps the loader's pattern shape invariant |
| Tracker.PatternLine | tracker/tracker.go:136-151 | `PATTERN r c` opens c channels of r rest rows, and fewer than three tokens are ignored |
| Tracker.ChannelLine | tracker/tracker.go:153-170 | `CH n:` sets row k of channel n from token k + 2. It ignores extra tokens, a channel past the end, and a line outside an open pattern |
| Tracker.EndPatternLine | tracker/tracker.go:172-176 | `ENDPATTERN` appends the open pattern and closes it, and is ignored with none open |
| Tracker.UnclosedPatternDropped | tracker/tracker.go:172-176 | without `ENDPATTERN` lines no pattern is ever appended |
| Tracker.SequenceLines | tracker/tracker.go:178-182 | two `SEQUENCE` lines concatenate their numbers in order and touch nothing else |
| Tracker.InstrumentLines | tracker/tracker.go:102-134 | `INSTRUMENT` needs 7 tokens and `FMINSTRUMENT` 3. The preset is upper-cased in ASCII case and the later tokens become parameters |
| Tracker.BlankLine | tracker/tracker.go:80-82 | a blank line changes nothing |
| Tracker.CommentLine | tracker/tracker.go:80-82 | a line whose first non-blank character is '#' changes nothing |
| Tracker.Run | tracker/tracker.go:76-184 | a run keeps the invariant and a panic names a line of the input |
| Tracker.ScanLines | tracker/tracker.go:72-76 | every line the scanner yields is free of '\n', and there are no more lines than characters |
| Tracker.ScanJoinLines | tracker/tracker.go:72-76 | lines with no '\n', no trailing '\r' and under 65 536 bytes, written one per line, scan back as themselves with no error |
| Tracker.NewlineSplitsLine | tracker/tracker.go:72-76 | a string holding a '\n' is read back as two lines |
| Tracker.LoadFile | tracker/tracker.go:72-186 | without a scanner error the result is that of loading the lines; after `ErrTooLong` it is never a plain success |
| Tracker.RunAppend | tracker/tracker.go:76-184 | loading a + b is loading a, then b from where a left off |
| Tracker.MakePattern | tracker/tracker.go:140-150 | the nested allocation loop builds `NewPattern` |
| Tracker.FillRows | tracker/tracker.go:160-169 | the token loop stores what `FillChannel` says |
| Tracker.ParseParams | tracker/tracker.go:127-132 | the parameter loop builds `Params` |
| Tracker.AppendSequence | tracker/tracker.go:179-182 | the loop appends each token's number in order |
| Tracker.ProcessLine | tracker/tracker.go:89-183 | the command switch updates the loader as `LoadLine` |
| Tracker.LoadVTM | tracker/tracker.go:57-187 | on a file's text: the scanner's lines go through the line loop and its error comes back with the module, as `LoadFile` says |
| Tracker.LoadLines | tracker/tracker.go:64-184 | the line loop, starting from tempo 120 and 6 ticks per row, gives `Load` |
| Tracker.NoteOffSavedAsRest | tracker/tracker.go:265-266 | a note-off is saved as "---" and reloads as a rest |
| Tracker.CellRoundTrip | tracker/tracker.go:263-269 | for a note below 108, a saved cell is one token; a note in 0..107 reloads as the same note with volume 1, and a negative note reloads as a rest (-1) |
| Tracker.TopNoteDoesNotRoundTrip | tracker/tracker.go:263-269 | "B#8" loads as note 108, which saves as "C-9", which reloads as no note (-1) |
| Tracker.ChannelFields | tracker/tracker.go:262-271 | a saved `CH` line splits into "CH", "k:" and one token per row |
| Tracker.PatternRun | tracker/tracker.go:259-273 | loading a saved pattern block appends that pattern with a cell normalised as loaded |
| Tracker.PatternsRun | tracker/tracker.go:259-275 | loading all saved pattern blocks appends every pattern in order |
| Tracker.InstrumentsRun | tracker/tracker.go:239-255 | loading the saved instrument lines leaves everything but the instruments alone |
| Tracker.HeaderRun | tracker/tracker.go:234-236 | the saved banner, title and tempo lines load the title's words and the tempo |
| Tracker.SequenceRun | tracker/tracker.go:278-282 | the saved `SEQUENCE` line loads the sequence back |
| Tracker.SaveThenLoad | tracker/tracker.go:57-285 | scanning and loading the text of a saved module succeeds when every channel holds exactly `Rows` cells (`Shaped`), every note is below 108 (`NotesPrintable`) and every written line scans back as itself. Patterns (normalised), sequence and tempo come back, the title comes back with its white space collapsed, and ticks per row is 6 |
| Tracker.SaveVTM | tracker/tracker.go:227-285 | the writing loops produce the text of `SaveText`'s lines, the banner, title and tempo, instruments, patterns and sequence, each ended by '\n' |
| Tracker.WritePattern | tracker/tracker.go:259-273 | a `PATTERN r c` line, one `CH` line per channel, then `ENDPATTERN` |
| Tracker.WriteChannel | tracker/tracker.go:262-271 | "CH k:" followed by one token per row, "---" for a negative note |
| Tracker.WriteSequence | tracker/tracker.go:278-282 | "SEQUENCE" followed by each entry |
| AudioWav.LE16Decodes | audio/wav.go:63-91 | two little-endian bytes read back as the value mod 2^16, and as itself when it is an int16 |
| AudioWav.LE32Decodes | audio/wav.go:42-101 | four little-endian bytes read back as the value mod 2^32 |
| AudioWav.Header | audio/wav.go:35-105 | the header is exactly 44 bytes |
| AudioWav.HeaderLayout | audio/wav.go:35-105 | the tags, sizes and fields sit at their offsets: RIFF, size, WAVE, "fmt ", 16, 1, 2, rate, byte rate, 4, 16, data, data size |
| AudioWav.HeaderAgrees | audio/wav.go:42-99 | the RIFF size is the data size plus 36. The byte rate is rate·channels·bytes per sample, and the block align is channels·bytes per sample |
| AudioWav.PlaceholderSizes | audio/wav.go:159-163 | the header written before any sample carries sizes 36 and 0 |
| AudioWav.FrameBytes | audio/wav.go:108-123 | a frame is four bytes |
| AudioWav.Clamp | audio/wav.go:170 | the result lies in [-1, 1] and is the sample itself when already there |
| AudioWav.ClampedFits | audio/wav.go:110-170 | a clamped sample quantises into [-32767, 32767] |
| AudioWav.SamplesLayout | audio/wav.go:108-173 | frame j of the body holds the quantised clamped sample j on both sides |
| AudioWav.Overwrite | audio/wav.go:128-142 | writing at an offset replaces exactly those bytes, extends the file when needed and keeps every other byte |
| AudioWav.CloseOnlyPatchesSizes | audio/wav.go:127-143 | `Close` rewrites only bytes 4..7 and 40..43, with the final sizes; everything else is unchanged |
| AudioWav.CloseFinalizesHeader | audio/wav.go:127-143 | patching a placeholder header gives the header for the final sample count |
| AudioWav.WAVWriter.constructor | audio/wav.go:21-32 | an empty open file at the given rate with no samples |
| AudioWav.WAVWriter.WriteHeader | audio/wav.go:35-105 | appends the 44 header bytes for the current count to an open file |
| AudioWav.WAVWriter.WriteSample | audio/wav.go:108-123 | appends exactly the frame's four bytes and counts one more sample; a closed file is unchanged |
| AudioWav.WAVWriter.Close | audio/wav.go:127-145 | patches both size fields on an open file and closes it; a second close fails and changes nothing |
| AudioWav.RenderedSample | audio/wav.go:166-168 | sample j of the render is the player's sample after j steps |
| AudioWav.FrameCount | audio/wav.go:166-177 | the number of frames rendered is max(samplesPerRow, 1)·Σmax(Rows, 1) |
| AudioWav.RenderToWAV | audio/wav.go:149-185 | for every module whose sequence is non-empty and names patterns only, the file is the header for the final frame count followed by every clamped, quantised sample of the song |
| AudioWav.FileLayout | audio/wav.go:149-185 | the file is 44 + 4·frames long, its size fields say so, and frame j holds the clamped sample j on both sides |
| AudioWav.RenderFrames | audio/wav.go:166-177 | the loop appends one frame per player step until the song is done |

## Left out

- File system. Opening, creating, seeking, writing and closing files, together with their error
  returns, are not modelled. A WAVE file is a byte sequence, and a module file is its text, which
  the loader takes and the saver returns. `WAVWriter` models a failed write only through its
  closed flag.
- Floating point. Levels, phases and gains are real numbers, with no rounding or float32
  conversion. `math.Sin` and `math.Pow` are fields of a `Libm` argument, and `NoteToFrequency` is
  left uninterpreted through it. The noise waveform's `math.Mod` is the real remainder.
- `strconv.ParseFloat`, the `%.3f` format of instrument times, and Go's map iteration order for
  FM parameters are function arguments of the loader and the saver.
- `strconv.Atoi` reads an optional sign and digits, and gives 0 for anything else. It has no
  64-bit range check.
- Aliasing. The allocator keeps voice values instead of `*Voice` pointers, and the player keeps
  allocator values. So `GetVoices`, `GetVoice`, `GetVoiceForNote` and `GetChannelVoices` return
  copies, and a caller cannot change a pooled voice through them.
- Integer width. Go's 64-bit `int` is unbounded here. Only the `uint32`/`uint16` casts of the
  WAVE fields are written out, as remainders mod 2^32 and 2^16.
- AudioWav.WAVWriter.WriteSample: requires both samples to fit an int16 after scaling. Go's
  conversion of an out-of-range float to int16 is implementation-defined; `RenderToWAV` clamps
  first, so it never passes one.
- AudioWav.RenderToWAV: requires a non-zero rate and tempo, and a non-empty sequence whose every
  entry names a pattern. On an empty sequence, or from an entry past the pattern list, the player
  never reports done and Go's loop never ends (`StuckNeverFinishes`). A negative entry panics in
  Go. A zero tempo and a zero rate are left out as the `SamplesPerRow` and `SampleRate` lines say.
  A samplesPerRow of 0 or less and patterns of 0 or fewer rows are covered.
- AudioWav.WAVWriter.WriteHeader: appends the whole header at once. A failure part way through
  the thirteen writes is not modelled.
- AudioPlayer.SamplesPerRow: requires a non-zero tempo, because Go's conversion of an infinite
  float to `int` is implementation-defined.
- GoMath.SampleRate: every sample rate is non-zero. So `NewFMOperator`, `NewFMInstrument`, the
  FM presets, `NewVoiceAllocator`, `NewPlayer` and `RenderToWAV` are not modelled at rate 0,
  which Go accepts. There the phase increments divide by zero and become infinite floats, and
  the reals of this model have no infinity.
- Tracker.ToUpper: folds ASCII case only, a–z to A–Z. Go's `strings.ToUpper` maps every Unicode
  letter with an upper case, so `ParseWaveType` and the `FMINSTRUMENT` preset differ on
  non-ASCII text. For example Go reads "ſaw" as Saw, and stores the preset of "pıano" as
  "PIANO".
- ParseWaveTypeIgnoresCase: ignores ASCII case only, as `Tracker.ToUpper` says.
- InstrumentLines: the preset is upper-cased in ASCII case only, as `Tracker.ToUpper` says.
- Tracker.SaveThenLoad: requires every written line to scan back as itself. It must hold no
  '\n', must not end in '\r', and must be under 65 536 bytes. A '\n' inside a title, an
  instrument name, a preset, a parameter or a formatted number makes Go's scanner read extra
  lines (`NewlineSplitsLine`). A `CH` line of 65 536 bytes or more, from a pattern of about
  16 000 rows, stops the load with `ErrTooLong` (`LoadFile` returns `TooLong`). It also requires
  every channel to hold exactly `Rows` cells (`Shaped`): a save writes only the first `Rows`
  cells, so a longer channel loses its tail. And it requires every note to be below 108
  (`NotesPrintable`): a module loaded from a cell "B#8" holds note 108, which is saved as "C-9"
  and reloads as a rest (`TopNoteDoesNotRoundTrip`), so such a module does not round-trip.
- Tracker.SaveText: requires every channel to hold at least `Rows` cells (`Printable`). Go's
  `SaveVTM` indexes each channel up to `Rows` and panics on a shorter one; that panic is not
  modelled.
- AudioVoiceAllocator.AllocState.NoteOn: requires a non-empty pool. On a pool built with
  maxVoices 0, Go's fallback `va.voices[0]` panics; that panic is not modelled.
- AudioVoiceAllocator.NewVoiceAllocator: requires maxVoices ≥ 0, because Go's `make` panics on a
  negative length.
- SynthVoice.VoiceState.SetFMInstrument: takes an instrument value, so Go's
  `SetFMInstrument(nil)` is not modelled. In Go that sets `useFM`. After it, `NoteOn`, `NoteOff`,
  `Next` and `IsActive` fall back to the subtractive path, because each tests
  `v.fmInstrument != nil`. That path panics on a voice built by `NewFMVoice`, whose oscillator and
  envelope are nil. `SetInstrument` tests only `useFM`, so it returns early and does nothing.
- Envelope timing. The stage lengths are truncations of seconds·rate. The attack reaches level 1
  one call after its count reaches the length, and the release always ramps from the sustain level.
- Oscillator phase. The phase wraps by subtracting 1 once (`PhaseEscapesAboveSampleRate`).
- vtm.go, the real-time playback transport (audio/playback.go, audio/playback_stub.go) and the
  command-line programs are not part of this model. They are concurrency, platform I/O and
  printing.
- Panics. A negative index passed to `SetOperator*` is ruled out by the `nat` index type. The
  player requires non-negative sequence entries (`Playable`), as Go indexes the patterns with them. The
  loader returns the line at which the Go runtime would panic: a negative `make` length, or a
  negative `CH` index.
- `TrackerNote` has a `chord` field that the loader never fills. The player reads `note.Chord`,
  which the tracker's note type does not declare.
- Some single Go functions are proved as a method plus helper methods, each small step with its
  own contract:
  - `Player.Next` as `MixChannels`, `AdvanceCursor` and `ProcessRow`, with `PlayCell`;
  - `NewPlayer` with `NewAllocators`;
  - `Stream` with `FillFrames`;
  - `FMInstrument.Next` as `MixStep` and one method per routing;
  - `RenderToWAV` as `WriteSong`, `RenderFrames` and `RenderFrame`.
