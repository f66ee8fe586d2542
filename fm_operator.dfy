/** An FM operator (synth/fm_operator.go): a sine oscillator with its own
    envelope, whose phase can be offset by a modulation signal in radians. */
module SynthFMOperator {
  import opened GoMath
  import opened SynthEnvelope

  /** The fields of an `FMOperator`, with the envelope it points to as a value. */
  datatype OpState = OpState(
    phase: real, frequency: real, sampleRate: SampleRate, env: EnvState,
    outputLevel: real, ratio: real)
  {
    /** `SetEnvelope` installs a fresh envelope at the operator's sample rate. */
    function SetEnvelope(attack: real, decay: real, sustain: real, release: real): (o: OpState)
      ensures o.env == NewEnvelope(attack, decay, sustain, release, sampleRate)
      ensures o.(env := env) == this
    {
      this.(env := NewEnvelope(attack, decay, sustain, release, sampleRate))
    }

    function SetRatio(r: real): (o: OpState)
      ensures o.ratio == r && o.(ratio := ratio) == this
    {
      this.(ratio := r)
    }

    function SetOutputLevel(level: real): (o: OpState)
      ensures o.outputLevel == level && o.(outputLevel := outputLevel) == this
    {
      this.(outputLevel := level)
    }

    /** `SetFrequency` tunes the operator to its ratio of the given base. */
    function SetFrequency(freq: real): (o: OpState)
      ensures o.frequency == freq * ratio && o.(frequency := frequency) == this
    {
      this.(frequency := freq * ratio)
    }

    /** `Trigger` restarts both the envelope and the phase. */
    function Trigger(): (o: OpState)
      ensures o.env == env.Trigger() && o.phase == 0.0
      ensures o.IsActive()
    {
      this.(env := env.Trigger(), phase := 0.0)
    }

    function Release(): (o: OpState)
      ensures o.env == env.Release() && o.phase == phase
    {
      this.(env := env.Release())
    }

    /** The envelope value of the next sample: the envelope advances first. */
    function NextEnvelope(): real
    {
      env.Next().level
    }

    /** The sample `Next(modulation)` returns. */
    function Output(lib: Libm, modulation: real): real
    {
      Scale(lib.sin(Angle(phase, modulation)), NextEnvelope(), outputLevel)
    }

    /** The state after `Next(modulation)`: the modulation shifts only the
        sample, never the phase, so the state does not depend on it. */
    function Next(): (o: OpState)
      ensures o.env == env.Next()
      ensures o.(phase := phase, env := env) == this
    {
      this.(env := env.Next(), phase := WrapFloor(phase + Increment(frequency, sampleRate)))
    }

    predicate IsActive()
    {
      env.IsActive()
    }

    /** `Reset` silences the operator at once, without a release ramp. */
    function Reset(): (o: OpState)
      ensures o.phase == 0.0 && !o.IsActive() && o.env.level == 0.0
      ensures o.env.Settings() == env.Settings()
    {
      this.(phase := 0.0, env := env.(stage := Off, level := 0.0))
    }
  }

  /** `NewFMOperator`: ratio 1, full output level, and the default envelope
      (10 ms attack, 100 ms decay, sustain 0.6, 200 ms release). */
  function NewFMOperator(sampleRate: SampleRate): (o: OpState)
    ensures o.phase == 0.0 && o.frequency == 0.0 && o.ratio == 1.0 && o.outputLevel == 1.0
    ensures o.env == NewEnvelope(0.01, 0.1, 0.6, 0.2, sampleRate)
    ensures !o.IsActive()
  {
    OpState(0.0, 0.0, sampleRate, NewEnvelope(0.01, 0.1, 0.6, 0.2, sampleRate), 1.0, 1.0)
  }

  /** The angle in radians at which the operator reads its sine. */
  function Angle(phase: real, modulation: real): real
  {
    2.0 * Pi * phase + modulation
  }

  /** The sine sample shaped by the envelope and the output level. */
  function Scale(sample: real, env: real, level: real): real
  {
    sample * env * level
  }

  /** The phase step per sample. */
  function Increment(frequency: real, sampleRate: SampleRate): real
  {
    frequency / sampleRate
  }

  /** The wrap of `Next`: the whole cycles are dropped once the phase reaches 1. */
  function WrapFloor(p: real): real
  {
    if p >= 1.0 then p - p.Floor as real else p
  }

  /** Whatever the frequency, a phase that does not go negative is brought back
      into [0, 1). */
  lemma PhaseStaysInCycle(o: OpState)
    requires 0.0 <= o.phase + Increment(o.frequency, o.sampleRate)
    ensures 0.0 <= o.Next().phase < 1.0
  {
  }

  /** The wrap drops whole cycles only: the sine sees the same angle. */
  lemma WrapDropsWholeCycles(p: real)
    ensures (p - WrapFloor(p)).Floor as real == p - WrapFloor(p)
  {
  }

  /** An operator's sample is bounded by its output level when `math.Sin` is
      bounded and the envelope's sustain level is in [0, 1]. */
  lemma OutputBounded(lib: Libm, o: OpState, modulation: real)
    requires SinBounded(lib)
    requires 0.0 <= o.env.sustainLevel <= 1.0 && 0.0 <= o.outputLevel
    ensures -o.outputLevel <= o.Output(lib, modulation) <= o.outputLevel
  {
    NextLevelInRange(o.env);
    var s := lib.sin(2.0 * Pi * o.phase + modulation);
    var e := o.NextEnvelope();
    assert 0.0 <= e <= 1.0;
    ProductBounded(s, e, o.outputLevel);
    assert o.Output(lib, modulation) == s * e * o.outputLevel;
    assert -o.outputLevel <= s * e * o.outputLevel;
    assert -o.outputLevel <= o.Output(lib, modulation);
  }

  lemma ProductBounded(s: real, e: real, g: real)
    requires -1.0 <= s <= 1.0 && 0.0 <= e <= 1.0 && 0.0 <= g
    ensures -g <= s * e * g <= g
  {
    UnitProduct(s, e);
    var se := s * e;
    UnitProduct(se, 1.0);
    if g > 0.0 {
      assert -g <= se * g <= g by {
        assert (1.0 - se) * g >= 0.0 by { NonNegProduct(1.0 - se, g); }
        assert (1.0 + se) * g >= 0.0 by { NonNegProduct(1.0 + se, g); }
      }
    }
  }

  lemma NonNegProduct(a: real, b: real)
    requires 0.0 <= a && 0.0 <= b
    ensures 0.0 <= a * b
  {
  }

  /** A value in [-1, 1] scaled by a factor in [0, 1] stays in [-1, 1]. */
  lemma UnitProduct(s: real, e: real)
    requires -1.0 <= s <= 1.0 && 0.0 <= e <= 1.0
    ensures -1.0 <= s * e <= 1.0
  {
    NonNegProduct(1.0 - s, e);
    NonNegProduct(1.0 + s, e);
  }

  /** An operator whose envelope is off is silent, and stays off. */
  lemma InactiveIsSilent(lib: Libm, o: OpState, modulation: real)
    requires !o.IsActive()
    ensures o.Output(lib, modulation) == 0.0
    ensures !o.Next().IsActive()
  {
  }

  /** After `Reset` the next sample is silence, whatever the modulation. */
  lemma ResetSilences(lib: Libm, o: OpState, modulation: real)
    ensures o.Reset().Output(lib, modulation) == 0.0
  {
    InactiveIsSilent(lib, o.Reset(), modulation);
  }

  /** The operator object; `envelope` is its own, replaced by `SetEnvelope`. */
  class FMOperator {
    var phase: real
    var frequency: real
    var sampleRate: SampleRate
    var envelope: Envelope
    var outputLevel: real
    var ratio: real

    /** The objects this operator owns. */
    function Repr(): set<object>
      reads this
    {
      {this, envelope}
    }

    function Model(): OpState
      reads this, envelope
    {
      OpState(phase, frequency, sampleRate, envelope.Model(), outputLevel, ratio)
    }

    constructor (rate: SampleRate)
      ensures Model() == NewFMOperator(rate)
      ensures fresh(envelope)
    {
      phase, sampleRate := 0.0, rate;
      envelope := new Envelope(0.01, 0.1, 0.6, 0.2, rate);
      outputLevel, ratio := 1.0, 1.0;
      frequency := 0.0;
    }

    method SetEnvelope(attack: real, decay: real, sustain: real, release: real)
      modifies this
      ensures Model() == old(Model()).SetEnvelope(attack, decay, sustain, release)
      ensures fresh(envelope)
    {
      envelope := new Envelope(attack, decay, sustain, release, sampleRate);
    }

    method SetRatio(r: real)
      modifies this
      ensures Model() == old(Model()).SetRatio(r) && envelope == old(envelope)
    {
      ratio := r;
    }

    method SetOutputLevel(level: real)
      modifies this
      ensures Model() == old(Model()).SetOutputLevel(level) && envelope == old(envelope)
    {
      outputLevel := level;
    }

    method SetFrequency(freq: real)
      modifies this
      ensures Model() == old(Model()).SetFrequency(freq) && envelope == old(envelope)
    {
      frequency := freq * ratio;
    }

    method Trigger()
      modifies this, envelope
      ensures Model() == old(Model()).Trigger() && envelope == old(envelope)
    {
      envelope.Trigger();
      phase := 0.0;
    }

    method Release()
      modifies envelope
      ensures Model() == old(Model()).Release()
    {
      envelope.Release();
    }

    method Next(lib: Libm, modulation: real) returns (out: real)
      modifies this, envelope
      ensures out == old(Model()).Output(lib, modulation)
      ensures Model() == old(Model()).Next() && envelope == old(envelope)
    {
      var env := envelope.Next();
      var sample := lib.sin(Angle(phase, modulation));
      var phaseIncrement := frequency / sampleRate;
      phase := phase + phaseIncrement;
      if phase >= 1.0 {
        phase := phase - phase.Floor as real;
      }
      out := Scale(sample, env, outputLevel);
    }

    method IsActive() returns (b: bool)
      ensures b == Model().IsActive()
    {
      b := envelope.IsActive();
    }

    method Reset()
      modifies this, envelope
      ensures Model() == old(Model()).Reset() && envelope == old(envelope)
    {
      phase := 0.0;
      envelope.stage := Off;
      envelope.level := 0.0;
    }
  }
}
