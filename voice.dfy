/** One synthesis voice (synth/voice.go): either the subtractive pair of an
    oscillator and an envelope, or an FM instrument, together with the
    note's volume and an `active` flag that keeps the voice sounding until
    its engine falls silent. */
module SynthVoice {
  import opened GoMath
  import opened SynthNote
  import opened SynthEnvelope
  import opened SynthOscillator
  import opened SynthFMOperator
  import opened SynthFMInstrument

  /** The two engines a voice can drive; Go's `useFM` flag chooses
      between them. */
  datatype Engine =
    | Subtractive(osc: OscState, env: EnvState)
    | FM(inst: InstState)
  {
    /** The engine's own report: the envelope, or some FM operator, is not off. */
    predicate IsActive()
    {
      if FM? then inst.IsActive() else env.IsActive()
    }
  }

  /** The fields of a `Voice`. */
  datatype VoiceState = VoiceState(engine: Engine, volume: real, active: bool, sampleRate: real)
  {
    /** `IsActive`: the voice sounds while its flag is set or its engine runs. */
    predicate IsActive()
    {
      active || engine.IsActive()
    }

    /** `SetInstrument`: an FM voice ignores it; a subtractive voice takes the
        new waveform and envelope parameters in place, keeping the envelope's
        stage, level and position. */
    function SetInstrument(waveType: int, attack: real, decay: real, sustain: real, release: real): (v: VoiceState)
      ensures engine.FM? ==> v == this
      ensures engine.Subtractive? ==>
        v.engine.Subtractive? && v.(engine := engine) == this &&
        v.engine.osc == engine.osc.(waveType := waveType) &&
        v.engine.env.Settings() == (attack, decay, sustain, release, engine.env.sampleRate) &&
        v.engine.env.stage == engine.env.stage && v.engine.env.level == engine.env.level &&
        v.engine.env.sampleCount == engine.env.sampleCount
      ensures v.IsActive() == IsActive()
    {
      if engine.FM? then this
      else
        var env := engine.env.(attackTime := attack, decayTime := decay,
                               sustainLevel := sustain, releaseTime := release);
        this.(engine := Subtractive(engine.osc.(waveType := waveType), env))
    }

    /** `SetFMInstrument`: from now on the voice plays the given instrument. */
    function SetFMInstrument(inst: InstState): (v: VoiceState)
      ensures v.engine == FM(inst) && v.(engine := engine) == this
    {
      this.(engine := FM(inst))
    }

    /** `NoteOn`: the voice becomes active at the given volume. An FM voice
        passes the note and the volume on to its instrument; a subtractive
        voice tunes its oscillator and restarts its envelope. */
    function NoteOn(lib: Libm, note: int, vol: real): (v: VoiceState)
      ensures v.active && v.IsActive() && v.volume == vol && v.sampleRate == sampleRate
      ensures v.engine.FM? == engine.FM?
      ensures engine.FM? ==> v.engine.inst == engine.inst.NoteOn(lib, note, vol)
      ensures engine.Subtractive? ==>
        v.engine.osc == engine.osc.SetFrequency(NoteToFrequency(lib, note)) &&
        v.engine.env == engine.env.Trigger()
    {
      var e := if engine.FM? then FM(engine.inst.NoteOn(lib, note, vol))
               else Subtractive(engine.osc.SetFrequency(NoteToFrequency(lib, note)), engine.env.Trigger());
      this.(engine := e, volume := vol, active := true)
    }

    /** `NoteOff`: the engine is released; the flag is left alone, so whether
        the voice sounds does not change until its release has run out. */
    function NoteOff(): (v: VoiceState)
      ensures v.active == active && v.volume == volume && v.sampleRate == sampleRate
      ensures v.IsActive() == IsActive()
      ensures v.engine.FM? == engine.FM?
      ensures engine.FM? ==> v.engine.inst == engine.inst.NoteOff()
      ensures engine.Subtractive? ==> v.engine.osc == engine.osc && v.engine.env == engine.env.Release()
    {
      var e := if engine.FM? then FM(engine.inst.NoteOff())
               else Subtractive(engine.osc, engine.env.Release());
      this.(engine := e)
    }

    /** The sample `Next` returns: silence for an idle voice; the instrument's
        own output for an FM voice, whose volume the instrument has already
        applied; and oscillator times envelope times volume otherwise. */
    function Output(lib: Libm): real
    {
      if !IsActive() then 0.0
      else if engine.FM? then engine.inst.Output(lib)
      else Gain(engine.osc.Output(lib), engine.env.Next().level, volume)
    }

    /** The state after `Next`. An idle voice does not advance; otherwise the
        engine advances one sample and the flag drops once the engine is off. */
    function Next(): (v: VoiceState)
      ensures v.volume == volume && v.sampleRate == sampleRate && v.engine.FM? == engine.FM?
    {
      if !IsActive() then this
      else if engine.FM? then
        var inst := engine.inst.Next();
        this.(engine := FM(inst), active := active && inst.IsActive())
      else
        var env := engine.env.Next();
        this.(engine := Subtractive(engine.osc.Next(), env), active := active && env.IsActive())
    }
  }

  /** The subtractive sample: the waveform shaped by the envelope and the volume. */
  function Gain(osc: real, env: real, volume: real): real
  {
    osc * env * volume
  }

  /** `NewVoice`: a subtractive voice with the default envelope (10 ms attack,
      100 ms decay, sustain 0.6, 200 ms release), full volume, idle. */
  function NewVoice(waveType: int, sampleRate: SampleRate): (v: VoiceState)
    ensures v.engine == Subtractive(NewOscillator(waveType, sampleRate), NewEnvelope(0.01, 0.1, 0.6, 0.2, sampleRate))
    ensures v.volume == 1.0 && !v.IsActive()
  {
    VoiceState(Subtractive(NewOscillator(waveType, sampleRate), NewEnvelope(0.01, 0.1, 0.6, 0.2, sampleRate)),
               1.0, false, sampleRate)
  }

  /** `NewFMVoice`: a voice playing the given instrument at its sample rate. */
  function NewFMVoice(inst: InstState): (v: VoiceState)
    ensures v.engine == FM(inst) && v.volume == 1.0 && !v.active
    ensures v.sampleRate == inst.sampleRate
    ensures v.IsActive() == inst.IsActive()
  {
    VoiceState(FM(inst), 1.0, false, inst.sampleRate)
  }

  /** `NewPianoVoice`: an idle voice playing the piano preset. */
  function NewPianoVoice(sampleRate: SampleRate): (v: VoiceState)
    ensures v.engine == FM(PianoFMInstrument(sampleRate)) && !v.IsActive()
  {
    NewFMVoice(PianoFMInstrument(sampleRate))
  }

  /** `NewElectricPianoVoice`: an idle voice playing the electric piano preset. */
  function NewElectricPianoVoice(sampleRate: SampleRate): (v: VoiceState)
    ensures v.engine == FM(ElectricPianoFMInstrument(sampleRate)) && !v.IsActive()
  {
    NewFMVoice(ElectricPianoFMInstrument(sampleRate))
  }

  // ---------------------------------------------------------------------------
  // Behaviour

  /** An idle voice outputs silence and does not advance its engine. */
  lemma IdleIsSilent(lib: Libm, v: VoiceState)
    requires !v.IsActive()
    ensures v.Output(lib) == 0.0 && v.Next() == v
  {
  }

  /** After a step that advances the engine, the voice is active exactly when
      its engine is: the flag never outlives the engine. */
  lemma ActiveFollowsEngine(v: VoiceState)
    requires v.IsActive()
    ensures v.Next().IsActive() <==> v.Next().engine.IsActive()
    ensures !v.active ==> !v.Next().active
  {
  }

  /** An FM voice hands the velocity to its instrument and applies no volume
      of its own: after a note, its sample is the instrument's mix times the
      velocity, once. */
  lemma FMVolumeAppliedOnce(lib: Libm, v: VoiceState, note: int, vel: real)
    requires v.engine.FM? && |v.engine.inst.ops| > 0
    ensures var w := v.NoteOn(lib, note, vel);
            w.Output(lib) == w.engine.inst.Mix(lib) * vel
  {
  }

  /** A subtractive voice's sample lies within its volume when the phase is in
      a cycle, the sustain level in [0, 1] and, for the sine, `math.Sin` bounded. */
  lemma SubtractiveBounded(lib: Libm, v: VoiceState)
    requires v.engine.Subtractive? && 0.0 <= v.volume
    requires 0.0 <= v.engine.osc.phase < 1.0
    requires v.engine.osc.waveType == Sine ==> SinBounded(lib)
    requires 0.0 <= v.engine.env.sustainLevel <= 1.0
    ensures -v.volume <= v.Output(lib) <= v.volume
  {
    if v.IsActive() {
      var o := v.engine.osc;
      WaveformInRange(lib, o.waveType, o.phase);
      NextLevelInRange(v.engine.env);
      GainBounded(o.Output(lib), v.engine.env.Next().level, v.volume);
    } else {
      assert v.Output(lib) == 0.0;
    }
  }

  lemma GainBounded(s: real, e: real, g: real)
    requires -1.0 <= s <= 1.0 && 0.0 <= e <= 1.0 && 0.0 <= g
    ensures -g <= Gain(s, e, g) <= g
  {
    ProductBounded(s, e, g);
  }

  /** Releasing a voice does not change whether it sounds, and a note played
      after the release makes it sound again. */
  lemma NoteOffThenOn(lib: Libm, v: VoiceState, note: int, vol: real)
    ensures v.NoteOff().IsActive() == v.IsActive()
    ensures v.NoteOff().NoteOn(lib, note, vol).IsActive()
  {
  }

  // ---------------------------------------------------------------------------
  // The voice object

  /** The voice object. Exactly one engine is in use: the FM instrument when
      `useFM` is set, the oscillator and envelope otherwise. The instrument is
      the caller's object and may be shared. */
  class Voice {
    var oscillator: Oscillator?
    var envelope: Envelope?
    var fmInstrument: FMInstrument?
    var useFM: bool
    var volume: real
    var active: bool
    var sampleRate: real

    /** The engine in use exists. */
    predicate Valid()
      reads this
    {
      (useFM ==> fmInstrument != null) && (!useFM ==> oscillator != null && envelope != null)
    }

    function Model(): VoiceState
      requires Valid()
      reads this, oscillator, envelope, fmInstrument
    {
      var engine := if useFM then FM(fmInstrument.Model())
                    else Subtractive(oscillator.Model(), envelope.Model());
      VoiceState(engine, volume, active, sampleRate)
    }

    /** `NewVoice`. */
    constructor (waveType: int, rate: SampleRate)
      ensures Valid() && Model() == NewVoice(waveType, rate)
      ensures fresh(oscillator) && fresh(envelope) && fmInstrument == null
    {
      oscillator := new Oscillator(waveType, rate);
      envelope := new Envelope(0.01, 0.1, 0.6, 0.2, rate);
      fmInstrument := null;
      volume, active, useFM := 1.0, false, false;
      sampleRate := rate;
    }

    /** `NewFMVoice`: the voice keeps the given instrument object. */
    constructor FromFM(inst: FMInstrument)
      ensures Valid() && Model() == NewFMVoice(inst.Model())
      ensures fmInstrument == inst && oscillator == null && envelope == null
    {
      fmInstrument := inst;
      oscillator, envelope := null, null;
      useFM, volume, active := true, 1.0, false;
      sampleRate := inst.sampleRate;
    }

    method SetInstrument(waveType: int, attack: real, decay: real, sustain: real, release: real)
      requires Valid()
      modifies oscillator, envelope
      ensures Valid() && Model() == old(Model()).SetInstrument(waveType, attack, decay, sustain, release)
    {
      if useFM {
        return;
      }
      oscillator.waveType := waveType;
      envelope.attackTime := attack;
      envelope.decayTime := decay;
      envelope.sustainLevel := sustain;
      envelope.releaseTime := release;
    }

    method SetFMInstrument(inst: FMInstrument)
      requires Valid()
      modifies this
      ensures Valid() && Model() == old(Model()).SetFMInstrument(inst.Model())
      ensures fmInstrument == inst && oscillator == old(oscillator) && envelope == old(envelope)
    {
      fmInstrument := inst;
      useFM := true;
    }

    method NoteOn(lib: Libm, note: int, vol: real)
      requires Valid()
      modifies this, oscillator, envelope, fmInstrument
      ensures Valid() && Model() == old(Model()).NoteOn(lib, note, vol)
      ensures oscillator == old(oscillator) && envelope == old(envelope) && fmInstrument == old(fmInstrument)
    {
      volume := vol;
      active := true;
      if useFM && fmInstrument != null {
        fmInstrument.NoteOn(lib, note, vol);
      } else {
        var freq := NoteToFrequency(lib, note);
        oscillator.SetFrequency(freq);
        envelope.Trigger();
      }
    }

    method NoteOff()
      requires Valid()
      modifies oscillator, envelope, fmInstrument
      ensures Valid() && Model() == old(Model()).NoteOff()
    {
      if useFM && fmInstrument != null {
        fmInstrument.NoteOff();
      } else {
        envelope.Release();
      }
    }

    method Next(lib: Libm) returns (sample: real)
      requires Valid()
      modifies this, oscillator, envelope, fmInstrument
      ensures Valid() && Model() == old(Model()).Next()
      ensures sample == old(Model()).Output(lib)
      ensures oscillator == old(oscillator) && envelope == old(envelope) && fmInstrument == old(fmInstrument)
    {
      if useFM && fmInstrument != null {
        var running := fmInstrument.IsActive();
        if !active && !running {
          return 0.0;
        }
        sample := fmInstrument.Next(lib);
        running := fmInstrument.IsActive();
        if !running {
          active := false;
        }
      } else {
        var running := envelope.IsActive();
        if !active && !running {
          return 0.0;
        }
        var osc := oscillator.Next(lib);
        var env := envelope.Next();
        running := envelope.IsActive();
        if !running {
          active := false;
        }
        sample := Gain(osc, env, volume);
      }
    }

    method IsActive() returns (b: bool)
      requires Valid()
      ensures b == Model().IsActive()
    {
      if useFM && fmInstrument != null {
        var running := fmInstrument.IsActive();
        return active || running;
      }
      var running := envelope.IsActive();
      return active || running;
    }
  }

  /** `NewPianoVoice`, as an object: a fresh voice on a fresh piano instrument. */
  method NewPianoVoiceObject(sampleRate: SampleRate) returns (v: Voice)
    ensures fresh(v) && fresh(v.fmInstrument)
    ensures v.Valid() && v.Model() == NewPianoVoice(sampleRate)
  {
    var inst := NewPianoFMInstrument(sampleRate);
    v := new Voice.FromFM(inst);
  }

  /** `NewElectricPianoVoice`, as an object. */
  method NewElectricPianoVoiceObject(sampleRate: SampleRate) returns (v: Voice)
    ensures fresh(v) && fresh(v.fmInstrument)
    ensures v.Valid() && v.Model() == NewElectricPianoVoice(sampleRate)
  {
    var inst := NewElectricPianoFMInstrument(sampleRate);
    v := new Voice.FromFM(inst);
  }
}
