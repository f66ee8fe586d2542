/** The basic oscillator of the subtractive voice (synth/oscillator.go): a
    phase in [0, 1) advanced by `frequency / sampleRate` per sample, shaped into
    one of five waveforms. */
module SynthOscillator {
  import opened GoMath

  /** `WaveType` is a Go `int`; any other value is a legal wave type that
      produces silence. */
  const Square: int := 0
  const Saw: int := 1
  const Triangle: int := 2
  const Sine: int := 3
  const Noise: int := 4

  /** The fields of an `Oscillator`. */
  datatype OscState = OscState(waveType: int, frequency: real, phase: real, sampleRate: SampleRate)
  {
    /** The sample `Next` returns: the waveform at the current phase. */
    function Output(lib: Libm): real
    {
      Waveform(lib, waveType, phase)
    }

    /** The state after `Next`: the phase advanced by one sample. */
    function Next(): (o: OscState)
      ensures o.waveType == waveType && o.frequency == frequency && o.sampleRate == sampleRate
    {
      this.(phase := WrapOnce(phase + Increment(frequency, sampleRate)))
    }

    function SetFrequency(freq: real): (o: OscState)
      ensures o.frequency == freq && o.phase == phase && o.waveType == waveType
    {
      this.(frequency := freq)
    }

    /** `Reset` restarts the waveform at phase 0. */
    function Reset(): (o: OscState)
      ensures o.phase == 0.0 && o.waveType == waveType && o.frequency == frequency
    {
      this.(phase := 0.0)
    }
  }

  /** `NewOscillator`: phase 0 and frequency 0 (Go's zero value). */
  function NewOscillator(waveType: int, sampleRate: SampleRate): (o: OscState)
    ensures o.waveType == waveType && o.phase == 0.0 && o.frequency == 0.0
  {
    OscState(waveType, 0.0, 0.0, sampleRate)
  }

  /** The phase step per sample. */
  function Increment(frequency: real, sampleRate: SampleRate): real
  {
    frequency / sampleRate
  }

  /** The wrap of `Next`: one subtraction of 1 once the phase reaches 1. */
  function WrapOnce(p: real): real
  {
    if p >= 1.0 then p - 1.0 else p
  }

  /** The five waveforms; an unknown wave type yields 0. */
  function Waveform(lib: Libm, waveType: int, phase: real): real
  {
    if waveType == Square then (if phase < 0.5 then 1.0 else -1.0)
    else if waveType == Saw then 2.0 * phase - 1.0
    else if waveType == Triangle then (if phase < 0.5 then 4.0 * phase - 1.0 else 3.0 - 4.0 * phase)
    else if waveType == Sine then lib.sin(2.0 * Pi * phase)
    else if waveType == Noise then 2.0 * ModOne(phase * 12345.6789) - 1.0
    else 0.0
  }

  /** Every waveform stays within [-1, 1] while the phase is in [0, 1) (for the
      sine, when `math.Sin` does); the square wave takes only the two extremes,
      and the saw and noise never reach +1. */
  lemma WaveformInRange(lib: Libm, waveType: int, phase: real)
    requires 0.0 <= phase < 1.0
    requires waveType == Sine ==> SinBounded(lib)
    ensures -1.0 <= Waveform(lib, waveType, phase) <= 1.0
    ensures waveType == Square ==> Waveform(lib, waveType, phase) in {1.0, -1.0}
    ensures waveType == Saw || waveType == Noise ==> Waveform(lib, waveType, phase) < 1.0
    ensures !(0 <= waveType <= 4) ==> Waveform(lib, waveType, phase) == 0.0
  {
  }

  /** The square wave is high on the first half of the cycle, low on the second. */
  lemma SquareHalves(lib: Libm, phase: real)
    ensures Waveform(lib, Square, phase) == 1.0 <==> phase < 0.5
  {
  }

  /** The triangle wave falls to -1 at the cycle start, rises to 1 at mid-cycle,
      and is continuous there. */
  lemma TrianglePeaks(lib: Libm)
    ensures Waveform(lib, Triangle, 0.0) == -1.0
    ensures Waveform(lib, Triangle, 0.5) == 1.0
    ensures forall p :: 0.0 <= p < 1.0 ==> Waveform(lib, Triangle, p) == Waveform(lib, Triangle, 1.0 - p) || p == 0.0
  {
    forall p | 0.0 <= p < 1.0
      ensures Waveform(lib, Triangle, p) == Waveform(lib, Triangle, 1.0 - p) || p == 0.0
    {
      if p < 0.5 && p != 0.0 {
        assert 1.0 - p > 0.5;
      }
    }
  }

  /** The phase stays in [0, 1) when each step advances it by at most a whole
      cycle; a single subtraction cannot bring back a phase that passed 2. */
  lemma PhaseStaysInCycle(o: OscState)
    requires 0.0 <= o.phase < 1.0
    requires 0.0 <= Increment(o.frequency, o.sampleRate) <= 1.0
    ensures 0.0 <= o.Next().phase < 1.0
  {
  }

  /** With an increment of more than a cycle the phase leaves [0, 1): at 1.5
      cycles per sample, two samples from phase 0 reach phase 1. */
  lemma PhaseEscapesAboveSampleRate()
    ensures var o := NewOscillator(Saw, 2.0).SetFrequency(3.0);
            o.Next().Next().phase == 1.0 && o.Next().Next().Output(Libm(x => x, (x, y) => x)) == 1.0
  {
  }

  /** `k` samples of phase advance. */
  function Run(o: OscState, k: nat): OscState
    decreases k
  {
    if k == 0 then o else Run(o.Next(), k - 1)
  }

  /** A frequency of `sampleRate / m` makes the waveform periodic with period
      `m` samples from phase 0: the phase after `j < m` samples is `j / m` and
      returns to 0 after `m`. */
  lemma {:induction false} PhaseAfterSteps(o: OscState, m: nat, j: nat)
    requires m >= 1 && o.phase == 0.0 && Increment(o.frequency, o.sampleRate) == 1.0 / m as real
    requires j <= m
    ensures Run(o, j).phase == (if j == m then 0.0 else j as real / m as real)
    ensures Run(o, j).frequency == o.frequency && Run(o, j).sampleRate == o.sampleRate
    decreases j
  {
    if j > 0 {
      PhaseAfterSteps(o, m, j - 1);
      RunLast(o, j - 1);
      FractionStep(j - 1, m);
    }
  }

  lemma FractionStep(k: nat, m: nat)
    requires k < m
    ensures k as real / m as real + 1.0 / m as real == (k + 1) as real / m as real
    ensures k + 1 == m ==> (k + 1) as real / m as real == 1.0
    ensures (k + 1) as real / m as real <= 1.0
  {
  }

  lemma {:induction false} RunLast(o: OscState, k: nat)
    ensures Run(o, k + 1) == Run(o, k).Next()
    decreases k
  {
    if k > 0 {
      RunLast(o.Next(), k - 1);
    }
  }

  /** The oscillator object. */
  class Oscillator {
    var waveType: int
    var frequency: real
    var phase: real
    var sampleRate: SampleRate

    function Model(): OscState
      reads this
    {
      OscState(waveType, frequency, phase, sampleRate)
    }

    constructor (wave: int, rate: SampleRate)
      ensures Model() == NewOscillator(wave, rate)
    {
      waveType, sampleRate := wave, rate;
      frequency, phase := 0.0, 0.0;
    }

    method SetFrequency(freq: real)
      modifies this
      ensures Model() == old(Model()).SetFrequency(freq)
    {
      frequency := freq;
    }

    method Next(lib: Libm) returns (sample: real)
      modifies this
      ensures sample == old(Model()).Output(lib)
      ensures Model() == old(Model()).Next()
    {
      if waveType == Square {
        if phase < 0.5 {
          sample := 1.0;
        } else {
          sample := -1.0;
        }
      } else if waveType == Saw {
        sample := 2.0 * phase - 1.0;
      } else if waveType == Triangle {
        if phase < 0.5 {
          sample := 4.0 * phase - 1.0;
        } else {
          sample := 3.0 - 4.0 * phase;
        }
      } else if waveType == Sine {
        sample := lib.sin(2.0 * Pi * phase);
      } else if waveType == Noise {
        sample := 2.0 * ModOne(phase * 12345.6789) - 1.0;
      } else {
        sample := 0.0;
      }
      var phaseIncrement := frequency / sampleRate;
      phase := phase + phaseIncrement;
      if phase >= 1.0 {
        phase := phase - 1.0;
      }
    }

    method Reset()
      modifies this
      ensures Model() == old(Model()).Reset()
    {
      phase := 0.0;
    }
  }
}
