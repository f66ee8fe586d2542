/** The ADSR envelope generator (synth/envelope.go): a per-sample state machine
    that ramps from 0 up to 1 (attack), down to the sustain level (decay),
    holds it (sustain) and ramps down to 0 (release). Stage lengths are whole
    sample counts, `int(seconds * sampleRate)`. */
module SynthEnvelope {
  import opened GoMath

  datatype Stage = Attack | Decay | Sustain | Release | Off

  /** The fields of an `Envelope`. */
  datatype EnvState = EnvState(
    attackTime: real, decayTime: real, sustainLevel: real, releaseTime: real,
    stage: Stage, level: real, sampleRate: real, sampleCount: nat)
  {
    /** The length of each ramp in samples. */
    function AttackSamples(): int { Samples(attackTime, sampleRate) }
    function DecaySamples(): int { Samples(decayTime, sampleRate) }
    function ReleaseSamples(): int { Samples(releaseTime, sampleRate) }

    /** `Trigger`: restart from the beginning of the attack, whatever the stage. */
    function Trigger(): (e: EnvState)
      ensures e.stage == Attack && e.sampleCount == 0
      ensures e.level == level
      ensures e.IsActive()
    {
      this.(stage := Attack, sampleCount := 0)
    }

    /** `Release`: enter the release stage, unless the envelope is already silent. */
    function Release(): (e: EnvState)
      ensures stage == Off ==> e == this
      ensures stage != Off ==> e.stage == Stage.Release && e.sampleCount == 0
      ensures e.level == level
      ensures e.IsActive() == IsActive()
    {
      if stage != Off then this.(stage := Stage.Release, sampleCount := 0) else this
    }

    /** `Next`: advance by one sample; the new `level` is the sample returned. */
    function Next(): (e: EnvState)
      ensures e.Settings() == Settings()
    {
      if stage == Attack then
        var n := AttackSamples();
        if n == 0 || sampleCount >= n then this.(level := 1.0, stage := Decay, sampleCount := 0)
        else this.(level := Fraction(sampleCount, n), sampleCount := sampleCount + 1)
      else if stage == Decay then
        var n := DecaySamples();
        if n == 0 || sampleCount >= n then this.(level := sustainLevel, stage := Sustain)
        else
          var t := Fraction(sampleCount, n);
          this.(level := DecayLevel(t, sustainLevel), sampleCount := sampleCount + 1)
      else if stage == Sustain then
        this.(level := sustainLevel)
      else if stage == Stage.Release then
        var n := ReleaseSamples();
        var startLevel := sustainLevel;
        if n == 0 || sampleCount >= n then this.(level := 0.0, stage := Off)
        else
          var t := Fraction(sampleCount, n);
          this.(level := ReleaseLevel(startLevel, t), sampleCount := sampleCount + 1)
      else
        this.(level := 0.0)
    }

    /** `IsActive`: any stage but `Off`. */
    predicate IsActive()
    {
      stage != Off
    }

    /** The four parameters, which no operation of the envelope changes. */
    function Settings(): (real, real, real, real, real)
    {
      (attackTime, decayTime, sustainLevel, releaseTime, sampleRate)
    }
  }

  /** How far a ramp of `n` samples has progressed after `count` of them. */
  function Fraction(count: nat, n: int): real
    requires n != 0
  {
    count as real / n as real
  }

  /** The level a fraction `t` of the way down the decay ramp. */
  function DecayLevel(t: real, sustain: real): real
  {
    1.0 + t * (sustain - 1.0)
  }

  /** The level a fraction `t` of the way down the release ramp. */
  function ReleaseLevel(start: real, t: real): real
  {
    start * (1.0 - t)
  }

  /** `int(seconds * sampleRate)`: a duration as a whole number of samples. */
  function Samples(seconds: real, rate: real): int
  {
    Trunc(seconds * rate)
  }

  /** `NewEnvelope`: silent, in the `Off` stage. */
  function NewEnvelope(attack: real, decay: real, sustain: real, release: real, sampleRate: real): (e: EnvState)
    ensures e.Settings() == (attack, decay, sustain, release, sampleRate)
    ensures !e.IsActive() && e.level == 0.0 && e.sampleCount == 0
  {
    EnvState(attack, decay, sustain, release, Off, 0.0, sampleRate, 0)
  }

  /** `k` successive calls of `Next`. */
  function Run(e: EnvState, k: nat): EnvState
    decreases k
  {
    if k == 0 then e else Run(e.Next(), k - 1)
  }

  lemma {:induction false} RunAdd(e: EnvState, a: nat, b: nat)
    ensures Run(e, a + b) == Run(Run(e, a), b)
    decreases a
  {
    if a > 0 {
      RunAdd(e.Next(), a - 1, b);
    }
  }

  /** Every sample stays within [0, 1] when the sustain level does. */
  lemma NextLevelInRange(e: EnvState)
    requires 0.0 <= e.sustainLevel <= 1.0
    ensures 0.0 <= e.Next().level <= 1.0
  {
    if e.stage == Attack {
      var n := e.AttackSamples();
      if !(n == 0 || e.sampleCount >= n) {
        RatioBelowOne(e.sampleCount, n);
        assert e.Next().level == Fraction(e.sampleCount, n);
      }
    } else if e.stage == Decay {
      var n := e.DecaySamples();
      if !(n == 0 || e.sampleCount >= n) {
        DecayInRange(e.sampleCount, n, e.sustainLevel);
        assert e.Next().level == DecayLevel(Fraction(e.sampleCount, n), e.sustainLevel);
      }
    } else if e.stage == Stage.Release {
      var n := e.ReleaseSamples();
      if !(n == 0 || e.sampleCount >= n) {
        ReleaseInRange(e.sampleCount, n, e.sustainLevel);
        assert e.Next().level == ReleaseLevel(e.sustainLevel, Fraction(e.sampleCount, n));
      }
    }
  }

  lemma DecayInRange(c: nat, n: int, s: real)
    requires c < n && 0.0 <= s <= 1.0
    ensures 0.0 <= DecayLevel(Fraction(c, n), s) <= 1.0
  {
    RatioBelowOne(c, n);
    ScaledStep(Fraction(c, n), 1.0 - s);
  }

  lemma ReleaseInRange(c: nat, n: int, s: real)
    requires c < n && 0.0 <= s <= 1.0
    ensures 0.0 <= ReleaseLevel(s, Fraction(c, n)) <= s
  {
    RatioBelowOne(c, n);
    ScaledStep(1.0 - Fraction(c, n), s);
  }

  lemma RatioBelowOne(c: nat, n: int)
    requires c < n
    ensures 0.0 <= c as real / n as real < 1.0
  {
  }

  /** A helper for `DecayInRange` and `ReleaseInRange`: a fraction of a unit value stays within it. */
  lemma ScaledStep(t: real, d: real)
    requires 0.0 <= t <= 1.0 && 0.0 <= d <= 1.0
    ensures 0.0 <= t * d <= d
  {
  }

  /** `Off` is absorbing, and silent. */
  lemma {:induction false} OffStaysOff(e: EnvState, k: nat)
    requires e.stage == Off
    ensures Run(e, k).stage == Off
    ensures k > 0 ==> Run(e, k).level == 0.0
    decreases k
  {
    if k > 0 {
      OffStaysOff(e.Next(), k - 1);
    }
  }

  /** `Sustain` holds the sustain level for as long as no release comes. */
  lemma {:induction false} SustainHolds(e: EnvState, k: nat)
    requires e.stage == Sustain
    ensures Run(e, k).stage == Sustain
    ensures k > 0 ==> Run(e, k).level == e.sustainLevel
    decreases k
  {
    if k > 0 {
      SustainHolds(e.Next(), k - 1);
    }
  }

  /** The attack ramp: the k-th sample of an attack of `n` samples is
      `(k - 1) / n`, while the envelope stays in `Attack`. */
  lemma {:induction false} AttackRamp(e: EnvState, k: nat)
    requires e.stage == Attack && e.sampleCount + k <= e.AttackSamples()
    requires k >= 1
    ensures Run(e, k).stage == Attack
    ensures Run(e, k).sampleCount == e.sampleCount + k
    ensures Run(e, k).level == (e.sampleCount + k - 1) as real / e.AttackSamples() as real
    ensures Run(e, k).Settings() == e.Settings()
    decreases k
  {
    if k > 1 {
      AttackRamp(e.Next(), k - 1);
    }
  }

  /** The number of calls the attack (respectively decay, release) stage takes to
      hand over to the next stage, starting from a count of 0: one call per
      sample of the ramp, and one more that finds the ramp complete. A ramp of
      zero or negative length takes that last call only. */
  function StageCalls(n: int): (c: nat)
    ensures c >= 1
    ensures n >= 0 ==> c == n + 1
  {
    if n > 0 then n + 1 else 1
  }

  /** After the attack a note is at full level, in `Decay`. */
  lemma AttackEnds(e: EnvState)
    requires e.stage == Attack && e.sampleCount == 0
    ensures Run(e, StageCalls(e.AttackSamples())) ==
            e.(stage := Decay, level := 1.0, sampleCount := 0)
  {
    var n := e.AttackSamples();
    if n > 0 {
      AttackRamp(e, n);
      RunAdd(e, n, 1);
    }
  }

  /** The decay ramp from 1 toward the sustain level. */
  lemma {:induction false} DecayRamp(e: EnvState, k: nat)
    requires e.stage == Decay && e.sampleCount + k <= e.DecaySamples()
    requires k >= 1
    ensures Run(e, k).stage == Decay
    ensures Run(e, k).sampleCount == e.sampleCount + k
    ensures Run(e, k).level ==
      1.0 + ((e.sampleCount + k - 1) as real / e.DecaySamples() as real) * (e.sustainLevel - 1.0)
    ensures Run(e, k).Settings() == e.Settings()
    decreases k
  {
    if k > 1 {
      DecayRamp(e.Next(), k - 1);
    }
  }

  /** After the decay the level is the sustain level, in `Sustain`. */
  lemma DecayEnds(e: EnvState)
    requires e.stage == Decay && e.sampleCount == 0
    ensures Run(e, StageCalls(e.DecaySamples())).stage == Sustain
    ensures Run(e, StageCalls(e.DecaySamples())).level == e.sustainLevel
    ensures Run(e, StageCalls(e.DecaySamples())).Settings() == e.Settings()
  {
    var n := e.DecaySamples();
    if n > 0 {
      DecayRamp(e, n);
      RunAdd(e, n, 1);
    }
  }

  /** The release ramp: it starts from the sustain level, whatever level the
      envelope had when it was released. */
  lemma {:induction false} ReleaseRamp(e: EnvState, k: nat)
    requires e.stage == Stage.Release && e.sampleCount + k <= e.ReleaseSamples()
    requires k >= 1
    ensures Run(e, k).stage == Stage.Release
    ensures Run(e, k).sampleCount == e.sampleCount + k
    ensures Run(e, k).level ==
      e.sustainLevel * (1.0 - (e.sampleCount + k - 1) as real / e.ReleaseSamples() as real)
    ensures Run(e, k).Settings() == e.Settings()
    decreases k
  {
    if k > 1 {
      ReleaseRamp(e.Next(), k - 1);
    }
  }

  /** A released envelope falls silent and turns `Off` after the release stage. */
  lemma ReleaseEnds(e: EnvState)
    requires e.stage == Stage.Release && e.sampleCount == 0
    ensures Run(e, StageCalls(e.ReleaseSamples())).stage == Off
    ensures Run(e, StageCalls(e.ReleaseSamples())).level == 0.0
  {
    var n := e.ReleaseSamples();
    if n > 0 {
      ReleaseRamp(e, n);
      RunAdd(e, n, 1);
    }
  }

  /** A whole note: from any state, a trigger reaches the sustain level after
      the attack and decay calls, and a release issued then turns the envelope
      off after the release calls. */
  lemma NoteLifetime(e: EnvState)
    ensures var held := Run(e.Trigger(), StageCalls(e.AttackSamples()) + StageCalls(e.DecaySamples()));
            held.stage == Sustain && held.level == e.sustainLevel &&
            Run(held.Release(), StageCalls(e.ReleaseSamples())).stage == Off
  {
    var t := e.Trigger();
    var a := StageCalls(e.AttackSamples());
    AttackEnds(t);
    RunAdd(t, a, StageCalls(e.DecaySamples()));
    var d := Run(t, a);
    DecayEnds(d);
    var held := Run(d, StageCalls(d.DecaySamples()));
    assert held.Settings() == e.Settings();
    ReleaseEnds(held.Release());
  }

  /** The envelope object. */
  class Envelope {
    var attackTime: real
    var decayTime: real
    var sustainLevel: real
    var releaseTime: real
    var stage: Stage
    var level: real
    var sampleRate: real
    var sampleCount: nat

    function Model(): EnvState
      reads this
    {
      EnvState(attackTime, decayTime, sustainLevel, releaseTime, stage, level, sampleRate, sampleCount)
    }

    constructor (attack: real, decay: real, sustain: real, release: real, rate: real)
      ensures Model() == NewEnvelope(attack, decay, sustain, release, rate)
    {
      attackTime, decayTime, sustainLevel, releaseTime := attack, decay, sustain, release;
      sampleRate := rate;
      stage, level, sampleCount := Off, 0.0, 0;
    }

    method Trigger()
      modifies this
      ensures Model() == old(Model()).Trigger()
    {
      stage := Attack;
      sampleCount := 0;
    }

    method Release()
      modifies this
      ensures Model() == old(Model()).Release()
    {
      if stage != Off {
        stage := Stage.Release;
        sampleCount := 0;
      }
    }

    method Next() returns (out: real)
      modifies this
      ensures Model() == old(Model()).Next()
      ensures out == level
    {
      if stage == Attack {
        var n := Samples(attackTime, sampleRate);
        if n == 0 {
          level, stage, sampleCount := 1.0, Decay, 0;
        } else if sampleCount >= n {
          level, stage, sampleCount := 1.0, Decay, 0;
        } else {
          level := Fraction(sampleCount, n);
          sampleCount := sampleCount + 1;
        }
      } else if stage == Decay {
        var n := Samples(decayTime, sampleRate);
        if n == 0 {
          level, stage := sustainLevel, Sustain;
        } else if sampleCount >= n {
          level, stage := sustainLevel, Sustain;
        } else {
          var t := Fraction(sampleCount, n);
          level := DecayLevel(t, sustainLevel);
          sampleCount := sampleCount + 1;
        }
      } else if stage == Sustain {
        level := sustainLevel;
      } else if stage == Stage.Release {
        var n := Samples(releaseTime, sampleRate);
        var startLevel := sustainLevel;
        if n == 0 {
          level, stage := 0.0, Off;
        } else if sampleCount >= n {
          level, stage := 0.0, Off;
        } else {
          var t := Fraction(sampleCount, n);
          level := ReleaseLevel(startLevel, t);
          sampleCount := sampleCount + 1;
        }
      } else {
        level := 0.0;
      }
      out := level;
    }

    method IsActive() returns (b: bool)
      ensures b == Model().IsActive()
    {
      b := stage != Off;
    }
  }
}
