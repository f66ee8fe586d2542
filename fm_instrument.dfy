/** A multi-operator FM instrument (synth/fm_instrument.go): operators wired
    by one of four algorithms, where a modulator's output, scaled by the
    modulation index, offsets the phase of the operator it feeds. */
module SynthFMInstrument {
  import opened GoMath
  import opened SynthNote
  import opened SynthEnvelope
  import opened SynthFMOperator

  /** `FMAlgorithm` is a Go `int`; any other value routes nothing and is silent. */
  const FM2OpSimple: int := 0
  const FM2OpParallel: int := 1
  const FM3OpStack: int := 2
  const FM4OpPiano: int := 3

  /** The fields of an `FMInstrument`, with its operators as values. */
  datatype InstState = InstState(
    ops: seq<OpState>, algorithm: int, modulationIndex: real, sampleRate: SampleRate,
    baseFrequency: real, volume: real)
  {
    /** `SetOperatorRatio`: an index past the last operator is ignored. */
    function SetOperatorRatio(opIndex: nat, ratio: real): (fm: InstState)
      ensures |fm.ops| == |ops| && fm.(ops := ops) == this
      ensures opIndex < |ops| ==> fm.ops[opIndex] == ops[opIndex].SetRatio(ratio)
      ensures forall j :: 0 <= j < |ops| && j != opIndex ==> fm.ops[j] == ops[j]
    {
      if opIndex < |ops| then this.(ops := ops[opIndex := ops[opIndex].SetRatio(ratio)]) else this
    }

    function SetOperatorEnvelope(opIndex: nat, attack: real, decay: real, sustain: real, release: real): (fm: InstState)
      ensures |fm.ops| == |ops| && fm.(ops := ops) == this
      ensures opIndex < |ops| ==> fm.ops[opIndex] == ops[opIndex].SetEnvelope(attack, decay, sustain, release)
      ensures forall j :: 0 <= j < |ops| && j != opIndex ==> fm.ops[j] == ops[j]
    {
      if opIndex < |ops| then
        this.(ops := ops[opIndex := ops[opIndex].SetEnvelope(attack, decay, sustain, release)])
      else this
    }

    function SetOperatorLevel(opIndex: nat, level: real): (fm: InstState)
      ensures |fm.ops| == |ops| && fm.(ops := ops) == this
      ensures opIndex < |ops| ==> fm.ops[opIndex] == ops[opIndex].SetOutputLevel(level)
      ensures forall j :: 0 <= j < |ops| && j != opIndex ==> fm.ops[j] == ops[j]
    {
      if opIndex < |ops| then this.(ops := ops[opIndex := ops[opIndex].SetOutputLevel(level)]) else this
    }

    function SetModulationIndex(index: real): (fm: InstState)
      ensures fm.modulationIndex == index && fm.(modulationIndex := modulationIndex) == this
    {
      this.(modulationIndex := index)
    }

    /** `NoteOn`: every operator is tuned to its ratio of the note's frequency
        and restarted, and the velocity becomes the instrument's volume. */
    function NoteOn(lib: Libm, note: int, velocity: real): (fm: InstState)
      ensures |fm.ops| == |ops|
      ensures fm.baseFrequency == NoteToFrequency(lib, note) && fm.volume == velocity
      ensures forall j :: 0 <= j < |ops| ==>
        fm.ops[j].frequency == fm.baseFrequency * ops[j].ratio && fm.ops[j].phase == 0.0 &&
        fm.ops[j].env == ops[j].env.Trigger()
      ensures fm.IsActive() <==> |ops| > 0
    {
      var base := NoteToFrequency(lib, note);
      var fm := this.(baseFrequency := base, volume := velocity,
                      ops := seq(|ops|, j requires 0 <= j < |ops| => ops[j].SetFrequency(base).Trigger()));
      assert |ops| > 0 ==> fm.ops[0].IsActive();
      fm
    }

    /** `NoteOff` releases every operator; the instrument stays active until the
        release stages have run out. */
    function NoteOff(): (fm: InstState)
      ensures |fm.ops| == |ops|
      ensures forall j :: 0 <= j < |ops| ==> fm.ops[j] == ops[j].Release()
      ensures fm.IsActive() == IsActive()
    {
      var fm := this.(ops := seq(|ops|, j requires 0 <= j < |ops| => ops[j].Release()));
      assert forall j :: 0 <= j < |ops| ==> (fm.ops[j].IsActive() <==> ops[j].IsActive());
      fm
    }

    /** How many operators, from the first, the algorithm reads: none when the
        algorithm is unknown or has fewer operators than it needs. */
    function Used(): (n: nat)
      ensures n <= |ops|
      ensures n == 0 || n == Needed(algorithm)
      ensures n > 0 <==> Needed(algorithm) > 0 && |ops| >= Needed(algorithm)
    {
      if |ops| == 0 then 0
      else if algorithm == FM2OpSimple && |ops| >= 2 then 2
      else if algorithm == FM2OpParallel && |ops| >= 2 then 2
      else if algorithm == FM3OpStack && |ops| >= 3 then 3
      else if algorithm == FM4OpPiano && |ops| >= 4 then 4
      else 0
    }

    /** The sample `Next` returns: the algorithm's mix scaled by the volume. */
    function Output(lib: Libm): real
    {
      if |ops| == 0 then 0.0 else Mix(lib) * volume
    }

    /** The algorithm's mix. Each operator the algorithm reads is read once, in
        its current state, with the modulation the algorithm feeds it. */
    function Mix(lib: Libm): real
    {
      if algorithm == FM2OpSimple && |ops| >= 2 then
        var modulator := Modulation(ops[1].Output(lib, 0.0), modulationIndex);
        ops[0].Output(lib, modulator)
      else if algorithm == FM2OpParallel && |ops| >= 2 then
        (ops[0].Output(lib, 0.0) + ops[1].Output(lib, 0.0)) * 0.5
      else if algorithm == FM3OpStack && |ops| >= 3 then
        var mod2 := Modulation(ops[2].Output(lib, 0.0), modulationIndex);
        var mod1 := Modulation(ops[1].Output(lib, mod2), modulationIndex);
        ops[0].Output(lib, mod1)
      else if algorithm == FM4OpPiano && |ops| >= 4 then
        var mod4 := Modulation(ops[3].Output(lib, 0.0), modulationIndex) * 0.5;
        var mod3 := Modulation(ops[2].Output(lib, mod4), modulationIndex);
        var mod2 := Modulation(ops[1].Output(lib, 0.0), modulationIndex) * 0.3;
        ops[0].Output(lib, mod3 + mod2)
      else 0.0
    }

    /** The state after `Next`: exactly the operators the algorithm reads have
        advanced by one sample; the others, and everything else, stay as they were. */
    function Next(): (fm: InstState)
      ensures |fm.ops| == |ops| && fm.(ops := ops) == this
      ensures forall j :: 0 <= j < Used() ==> fm.ops[j] == ops[j].Next()
      ensures forall j :: Used() <= j < |ops| ==> fm.ops[j] == ops[j]
    {
      var n := Used();
      this.(ops := seq(|ops|, j requires 0 <= j < |ops| => if j < n then ops[j].Next() else ops[j]))
    }

    /** `IsActive`: some operator's envelope is not yet off. */
    predicate IsActive()
    {
      exists j :: 0 <= j < |ops| && ops[j].IsActive()
    }

    /** Every operator is read by the algorithm. */
    predicate Routed()
    {
      Used() == |ops|
    }

    /** Sustain and output levels of every operator lie in [0, 1]. */
    predicate LevelsInUnitRange()
    {
      forall j :: 0 <= j < |ops| ==>
        0.0 <= ops[j].env.sustainLevel <= 1.0 && 0.0 <= ops[j].outputLevel <= 1.0
    }
  }

  /** A modulator's sample scaled by the modulation index: the phase offset,
      in radians, it adds to the operator it feeds. */
  function Modulation(sample: real, index: real): real
  {
    sample * index
  }

  /** The number of operators an algorithm wires together; 0 for an unknown one. */
  function Needed(algorithm: int): nat
  {
    if algorithm == FM2OpSimple || algorithm == FM2OpParallel then 2
    else if algorithm == FM3OpStack then 3
    else if algorithm == FM4OpPiano then 4
    else 0
  }

  /** `NewFMInstrument`: `numOperators` default operators, modulation index 2
      and volume 1. Go's `make` refuses a negative count, hence a `nat`. */
  function NewFMInstrument(numOperators: nat, algorithm: int, sampleRate: SampleRate): (fm: InstState)
    ensures |fm.ops| == numOperators && !fm.IsActive()
    ensures forall j :: 0 <= j < numOperators ==> fm.ops[j] == NewFMOperator(sampleRate)
    ensures fm.modulationIndex == 2.0 && fm.volume == 1.0 && fm.algorithm == algorithm
  {
    InstState(seq(numOperators, _ => NewFMOperator(sampleRate)), algorithm, 2.0, sampleRate, 0.0, 1.0)
  }

  // ---------------------------------------------------------------------------
  // Behaviour

  /** An unknown algorithm, or too few operators for it, is silent and leaves
      every operator where it was. */
  lemma UnroutedIsSilent(lib: Libm, fm: InstState)
    requires fm.Used() == 0
    ensures fm.Output(lib) == 0.0
    ensures fm.Next() == fm
  {
    assert fm.Next().ops == fm.ops;
  }

  /** An instrument none of whose operators is active outputs silence. */
  lemma InactiveIsSilent(lib: Libm, fm: InstState)
    requires !fm.IsActive()
    ensures fm.Output(lib) == 0.0
    ensures !fm.Next().IsActive()
  {
    forall j, m: real | 0 <= j < |fm.ops| ensures fm.ops[j].Output(lib, m) == 0.0 {
      SynthFMOperator.InactiveIsSilent(lib, fm.ops[j], m);
    }
    forall j | 0 <= j < |fm.ops| ensures !fm.Next().ops[j].IsActive() {
      SynthFMOperator.InactiveIsSilent(lib, fm.ops[j], 0.0);
    }
    assert fm.Mix(lib) == 0.0;
  }

  /** An operator whose levels lie in [0, 1] yields samples in [-1, 1],
      whatever modulation it is fed. */
  lemma OperatorsBounded(lib: Libm, fm: InstState)
    requires SinBounded(lib) && fm.LevelsInUnitRange()
    ensures forall j, m: real :: 0 <= j < |fm.ops| ==> -1.0 <= fm.ops[j].Output(lib, m) <= 1.0
  {
    forall j, m: real | 0 <= j < |fm.ops| ensures -1.0 <= fm.ops[j].Output(lib, m) <= 1.0 {
      SynthFMOperator.OutputBounded(lib, fm.ops[j], m);
    }
  }

  /** With levels in [0, 1] and a bounded `math.Sin`, every algorithm's mix
      lies in [-1, 1]: the carrier's level bounds it, or for the parallel
      algorithm the average of two. */
  lemma MixBounded(lib: Libm, fm: InstState)
    requires SinBounded(lib) && fm.LevelsInUnitRange()
    ensures -1.0 <= fm.Mix(lib) <= 1.0
  {
    OperatorsBounded(lib, fm);
  }

  /** Hence every sample lies within the volume. */
  lemma OutputBounded(lib: Libm, fm: InstState)
    requires SinBounded(lib)
    requires fm.LevelsInUnitRange() && 0.0 <= fm.volume
    ensures -fm.volume <= fm.Output(lib) <= fm.volume
  {
    if |fm.ops| > 0 {
      MixBounded(lib, fm);
      ScaleBounded(fm.Mix(lib), fm.volume);
      OutputScalesMix(lib, fm);
    }
  }

  lemma OutputScalesMix(lib: Libm, fm: InstState)
    requires |fm.ops| > 0
    ensures fm.Output(lib) == fm.Mix(lib) * fm.volume
  {
  }

  /** A unit value scaled by a non-negative gain lies within the gain. */
  lemma ScaleBounded(x: real, g: real)
    requires -1.0 <= x <= 1.0 && 0.0 <= g
    ensures -g <= x * g <= g
  {
    ProductBounded(x, 1.0, g);
    assert x * 1.0 * g == x * g;
  }

  /** A note on a routed instrument with at least one operator is active. */
  lemma NoteOnActivates(lib: Libm, fm: InstState, note: int, velocity: real)
    requires |fm.ops| > 0
    ensures fm.NoteOn(lib, note, velocity).IsActive()
  {
  }

  // ---------------------------------------------------------------------------
  // Presets

  /** A preset is well formed when its algorithm reads all of its operators,
      every level lies in [0, 1] (so that `OutputBounded` applies after any
      note), and it is silent until its first note. */
  predicate WellFormed(fm: InstState)
  {
    fm.Routed() && fm.LevelsInUnitRange() && !fm.IsActive()
  }

  /** `NewPianoFMInstrument`: 4 operators wired by `FM4OpPiano`, modulation index 1.5. */
  function PianoFMInstrument(sampleRate: SampleRate): (fm: InstState)
    ensures WellFormed(fm) && |fm.ops| == 4 && fm.algorithm == FM4OpPiano
    ensures fm.ops[0].ratio == 1.0 && fm.ops[0].outputLevel == 1.0
  {
    NewFMInstrument(4, FM4OpPiano, sampleRate)
      .SetOperatorRatio(0, 1.0).SetOperatorEnvelope(0, 0.001, 0.3, 0.0, 0.2).SetOperatorLevel(0, 1.0)
      .SetOperatorRatio(1, 2.0).SetOperatorEnvelope(1, 0.001, 0.15, 0.0, 0.1).SetOperatorLevel(1, 0.7)
      .SetOperatorRatio(2, 3.5).SetOperatorEnvelope(2, 0.001, 0.2, 0.0, 0.15).SetOperatorLevel(2, 0.5)
      .SetOperatorRatio(3, 5.0).SetOperatorEnvelope(3, 0.0005, 0.05, 0.0, 0.05).SetOperatorLevel(3, 0.4)
      .SetModulationIndex(1.5)
  }

  /** `NewElectricPianoFMInstrument`: 2 operators wired by `FM2OpSimple`, modulation index 3.0. */
  function ElectricPianoFMInstrument(sampleRate: SampleRate): (fm: InstState)
    ensures WellFormed(fm) && |fm.ops| == 2 && fm.algorithm == FM2OpSimple
    ensures fm.ops[0].ratio == 1.0 && fm.ops[0].outputLevel == 1.0
  {
    NewFMInstrument(2, FM2OpSimple, sampleRate)
      .SetOperatorRatio(0, 1.0).SetOperatorEnvelope(0, 0.002, 0.4, 0.3, 0.3).SetOperatorLevel(0, 1.0)
      .SetOperatorRatio(1, 14.0).SetOperatorEnvelope(1, 0.001, 0.2, 0.0, 0.2).SetOperatorLevel(1, 0.8)
      .SetModulationIndex(3.0)
  }

  /** `NewFMBassFMInstrument`: 3 operators wired by `FM3OpStack`, modulation index 3.5. */
  function BassFMInstrument(sampleRate: SampleRate): (fm: InstState)
    ensures WellFormed(fm) && |fm.ops| == 3 && fm.algorithm == FM3OpStack
    ensures fm.ops[0].ratio == 1.0 && fm.ops[0].outputLevel == 1.0
  {
    NewFMInstrument(3, FM3OpStack, sampleRate)
      .SetOperatorRatio(0, 1.0).SetOperatorEnvelope(0, 0.001, 0.2, 0.7, 0.15).SetOperatorLevel(0, 1.0)
      .SetOperatorRatio(1, 2.01).SetOperatorEnvelope(1, 0.001, 0.15, 0.5, 0.1).SetOperatorLevel(1, 0.9)
      .SetOperatorRatio(2, 4.0).SetOperatorEnvelope(2, 0.0005, 0.08, 0.2, 0.05).SetOperatorLevel(2, 0.7)
      .SetModulationIndex(3.5)
  }

  /** `NewFMLeadFMInstrument`: 2 operators wired by `FM2OpSimple`, modulation index 5.0. */
  function LeadFMInstrument(sampleRate: SampleRate): (fm: InstState)
    ensures WellFormed(fm) && |fm.ops| == 2 && fm.algorithm == FM2OpSimple
    ensures fm.ops[0].ratio == 1.0 && fm.ops[0].outputLevel == 1.0
  {
    NewFMInstrument(2, FM2OpSimple, sampleRate)
      .SetOperatorRatio(0, 1.0).SetOperatorEnvelope(0, 0.005, 0.1, 0.8, 0.15).SetOperatorLevel(0, 1.0)
      .SetOperatorRatio(1, 3.0).SetOperatorEnvelope(1, 0.002, 0.08, 0.6, 0.1).SetOperatorLevel(1, 1.0)
      .SetModulationIndex(5.0)
  }

  /** `NewFMBrassFMInstrument`: 3 operators wired by `FM3OpStack`, modulation index 2.0. */
  function BrassFMInstrument(sampleRate: SampleRate): (fm: InstState)
    ensures WellFormed(fm) && |fm.ops| == 3 && fm.algorithm == FM3OpStack
    ensures fm.ops[0].ratio == 1.0 && fm.ops[0].outputLevel == 1.0
  {
    NewFMInstrument(3, FM3OpStack, sampleRate)
      .SetOperatorRatio(0, 1.0).SetOperatorEnvelope(0, 0.02, 0.15, 0.7, 0.2).SetOperatorLevel(0, 1.0)
      .SetOperatorRatio(1, 1.5).SetOperatorEnvelope(1, 0.015, 0.12, 0.6, 0.15).SetOperatorLevel(1, 0.8)
      .SetOperatorRatio(2, 3.0).SetOperatorEnvelope(2, 0.01, 0.1, 0.5, 0.12).SetOperatorLevel(2, 0.6)
      .SetModulationIndex(2.0)
  }

  /** `NewFMBellFMInstrument`: 2 operators wired by `FM2OpSimple`, modulation index 4.0. */
  function BellFMInstrument(sampleRate: SampleRate): (fm: InstState)
    ensures WellFormed(fm) && |fm.ops| == 2 && fm.algorithm == FM2OpSimple
    ensures fm.ops[0].ratio == 1.0 && fm.ops[0].outputLevel == 1.0
  {
    NewFMInstrument(2, FM2OpSimple, sampleRate)
      .SetOperatorRatio(0, 1.0).SetOperatorEnvelope(0, 0.001, 0.5, 0.2, 0.4).SetOperatorLevel(0, 1.0)
      .SetOperatorRatio(1, 11.0).SetOperatorEnvelope(1, 0.001, 0.3, 0.0, 0.3).SetOperatorLevel(1, 0.9)
      .SetModulationIndex(4.0)
  }

  /** `NewFMArpFMInstrument`: 2 operators wired by `FM2OpSimple`, modulation index 2.5. */
  function ArpFMInstrument(sampleRate: SampleRate): (fm: InstState)
    ensures WellFormed(fm) && |fm.ops| == 2 && fm.algorithm == FM2OpSimple
    ensures fm.ops[0].ratio == 1.0 && fm.ops[0].outputLevel == 1.0
  {
    NewFMInstrument(2, FM2OpSimple, sampleRate)
      .SetOperatorRatio(0, 1.0).SetOperatorEnvelope(0, 0.001, 0.05, 0.3, 0.05).SetOperatorLevel(0, 1.0)
      .SetOperatorRatio(1, 2.0).SetOperatorEnvelope(1, 0.001, 0.03, 0.1, 0.03).SetOperatorLevel(1, 0.85)
      .SetModulationIndex(2.5)
  }

  // ---------------------------------------------------------------------------
  // The instrument object

  /** The instrument object. The operators it creates are reached only through
      it, so it holds them as values and updates them one slot at a time. */
  class FMInstrument {
    var ops: seq<OpState>
    const algorithm: int
    var modulationIndex: real
    const sampleRate: SampleRate
    var baseFrequency: real
    var volume: real

    function Model(): InstState
      reads this
    {
      InstState(ops, algorithm, modulationIndex, sampleRate, baseFrequency, volume)
    }

    constructor (numOperators: nat, alg: int, rate: SampleRate)
      ensures Model() == NewFMInstrument(numOperators, alg, rate)
    {
      var operators: seq<OpState> := [];
      while |operators| < numOperators
        invariant |operators| <= numOperators
        invariant forall j :: 0 <= j < |operators| ==> operators[j] == NewFMOperator(rate)
      {
        operators := operators + [NewFMOperator(rate)];
      }
      ops := operators;
      algorithm := alg;
      modulationIndex := 2.0;
      sampleRate := rate;
      baseFrequency := 0.0;
      volume := 1.0;
    }

    method SetOperatorRatio(opIndex: nat, ratio: real)
      modifies this
      ensures Model() == old(Model()).SetOperatorRatio(opIndex, ratio)
    {
      if opIndex < |ops| {
        ops := ops[opIndex := ops[opIndex].SetRatio(ratio)];
      }
    }

    method SetOperatorEnvelope(opIndex: nat, attack: real, decay: real, sustain: real, release: real)
      modifies this
      ensures Model() == old(Model()).SetOperatorEnvelope(opIndex, attack, decay, sustain, release)
    {
      if opIndex < |ops| {
        ops := ops[opIndex := ops[opIndex].SetEnvelope(attack, decay, sustain, release)];
      }
    }

    method SetOperatorLevel(opIndex: nat, level: real)
      modifies this
      ensures Model() == old(Model()).SetOperatorLevel(opIndex, level)
    {
      if opIndex < |ops| {
        ops := ops[opIndex := ops[opIndex].SetOutputLevel(level)];
      }
    }

    method SetModulationIndex(index: real)
      modifies this
      ensures Model() == old(Model()).SetModulationIndex(index)
    {
      modulationIndex := index;
    }

    method NoteOn(lib: Libm, note: int, velocity: real)
      modifies this
      ensures Model() == old(Model()).NoteOn(lib, note, velocity)
    {
      baseFrequency := NoteToFrequency(lib, note);
      volume := velocity;
      var i := 0;
      while i < |ops|
        invariant 0 <= i <= |ops| == |old(ops)|
        invariant forall j :: 0 <= j < i ==> ops[j] == old(ops)[j].SetFrequency(baseFrequency).Trigger()
        invariant forall j :: i <= j < |ops| ==> ops[j] == old(ops)[j]
        invariant baseFrequency == NoteToFrequency(lib, note) && volume == velocity
        invariant modulationIndex == old(modulationIndex)
      {
        ops := ops[i := ops[i].SetFrequency(baseFrequency).Trigger()];
        i := i + 1;
      }
    }

    method NoteOff()
      modifies this
      ensures Model() == old(Model()).NoteOff()
    {
      var i := 0;
      while i < |ops|
        invariant 0 <= i <= |ops| == |old(ops)|
        invariant forall j :: 0 <= j < i ==> ops[j] == old(ops)[j].Release()
        invariant forall j :: i <= j < |ops| ==> ops[j] == old(ops)[j]
        invariant modulationIndex == old(modulationIndex)
        invariant baseFrequency == old(baseFrequency) && volume == old(volume)
      {
        ops := ops[i := ops[i].Release()];
        i := i + 1;
      }
    }

    /** Runs operator `k` for one sample with the given modulation. */
    method Step(lib: Libm, k: nat, modulation: real) returns (s: real)
      requires k < |ops|
      modifies this
      ensures s == old(ops)[k].Output(lib, modulation)
      ensures ops == old(ops)[k := old(ops)[k].Next()]
      ensures modulationIndex == old(modulationIndex) && volume == old(volume)
      ensures baseFrequency == old(baseFrequency)
    {
      s := ops[k].Output(lib, modulation);
      ops := ops[k := ops[k].Next()];
    }

    /** `Next`: one sample of the algorithm's mix, scaled by the volume. The
        four routings are the four cases of Go's `switch fm.algorithm`. */
    method Next(lib: Libm) returns (sample: real)
      modifies this
      ensures sample == old(Model()).Output(lib)
      ensures Model() == old(Model()).Next()
    {
      if |ops| == 0 {
        assert old(Model()).Next().ops == [];
        return 0.0;
      }
      var output := MixStep(lib);
      sample := output * volume;
    }

    /** The switch of `Next`: runs the operators of the algorithm and returns
        their mix, or `0` for an algorithm with too few operators. */
    method MixStep(lib: Libm) returns (output: real)
      modifies this
      ensures output == old(Model()).Mix(lib) && volume == old(volume)
      ensures Model() == old(Model()).Next()
    {
      output := 0.0;
      if algorithm == FM2OpSimple && |ops| >= 2 {
        output := NextSimple(lib);
      } else if algorithm == FM2OpParallel && |ops| >= 2 {
        output := NextParallel(lib);
      } else if algorithm == FM3OpStack && |ops| >= 3 {
        output := NextStack(lib);
      } else if algorithm == FM4OpPiano && |ops| >= 4 {
        output := NextPiano(lib);
      } else {
        assert old(Model()).Next().ops == ops;
      }
    }

    /** Operator 2 modulates operator 1, the carrier. */
    method NextSimple(lib: Libm) returns (output: real)
      requires algorithm == FM2OpSimple && |ops| >= 2
      modifies this
      ensures output == old(Model()).Mix(lib) && volume == old(volume)
      ensures Model() == old(Model()).Next()
    {
      ghost var o := ops;
      var modulator := Step(lib, 1, 0.0);
      modulator := Modulation(modulator, modulationIndex);
      output := Step(lib, 0, modulator);
      assert ops == o[1 := o[1].Next()][0 := o[0].Next()];
    }

    /** Operators 1 and 2 both sound; the output is their average. */
    method NextParallel(lib: Libm) returns (output: real)
      requires algorithm == FM2OpParallel && |ops| >= 2
      modifies this
      ensures output == old(Model()).Mix(lib) && volume == old(volume)
      ensures Model() == old(Model()).Next()
    {
      ghost var o := ops;
      var a := Step(lib, 0, 0.0);
      var b := Step(lib, 1, 0.0);
      output := (a + b) * 0.5;
      assert ops == o[0 := o[0].Next()][1 := o[1].Next()];
    }

    /** Operator 3 modulates operator 2, which modulates operator 1. */
    method NextStack(lib: Libm) returns (output: real)
      requires algorithm == FM3OpStack && |ops| >= 3
      modifies this
      ensures output == old(Model()).Mix(lib) && volume == old(volume)
      ensures Model() == old(Model()).Next()
    {
      ghost var o := ops;
      var mod2 := Step(lib, 2, 0.0);
      mod2 := Modulation(mod2, modulationIndex);
      var mod1 := Step(lib, 1, mod2);
      mod1 := Modulation(mod1, modulationIndex);
      output := Step(lib, 0, mod1);
      assert ops == o[2 := o[2].Next()][1 := o[1].Next()][0 := o[0].Next()];
    }

    /** Operator 4 modulates operator 3; operators 3 and 2 both modulate operator 1. */
    method NextPiano(lib: Libm) returns (output: real)
      requires algorithm == FM4OpPiano && |ops| >= 4
      modifies this
      ensures output == old(Model()).Mix(lib) && volume == old(volume)
      ensures Model() == old(Model()).Next()
    {
      ghost var o := ops;
      var mod4 := Step(lib, 3, 0.0);
      mod4 := Modulation(mod4, modulationIndex) * 0.5;
      var mod3 := Step(lib, 2, mod4);
      mod3 := Modulation(mod3, modulationIndex);
      var mod2 := Step(lib, 1, 0.0);
      mod2 := Modulation(mod2, modulationIndex) * 0.3;
      output := Step(lib, 0, mod3 + mod2);
      assert ops == o[3 := o[3].Next()][2 := o[2].Next()][1 := o[1].Next()][0 := o[0].Next()];
    }

    /** `IsActive`: scans the operators and stops at the first active one. */
    method IsActive() returns (b: bool)
      ensures b == Model().IsActive()
    {
      var i := 0;
      while i < |ops|
        invariant 0 <= i <= |ops|
        invariant forall j :: 0 <= j < i ==> !ops[j].IsActive()
      {
        if ops[i].IsActive() {
          return true;
        }
        i := i + 1;
      }
      return false;
    }
  }

  // ---------------------------------------------------------------------------
  // The presets as instrument objects, built by the constructor and setters
  // exactly as the preset values above describe.

  method NewPianoFMInstrument(sampleRate: SampleRate) returns (fm: FMInstrument)
    ensures fresh(fm)
    ensures fm.Model() == PianoFMInstrument(sampleRate)
  {
    fm := new FMInstrument(4, FM4OpPiano, sampleRate);
    fm.SetOperatorRatio(0, 1.0);
    fm.SetOperatorEnvelope(0, 0.001, 0.3, 0.0, 0.2);
    fm.SetOperatorLevel(0, 1.0);
    fm.SetOperatorRatio(1, 2.0);
    fm.SetOperatorEnvelope(1, 0.001, 0.15, 0.0, 0.1);
    fm.SetOperatorLevel(1, 0.7);
    fm.SetOperatorRatio(2, 3.5);
    fm.SetOperatorEnvelope(2, 0.001, 0.2, 0.0, 0.15);
    fm.SetOperatorLevel(2, 0.5);
    fm.SetOperatorRatio(3, 5.0);
    fm.SetOperatorEnvelope(3, 0.0005, 0.05, 0.0, 0.05);
    fm.SetOperatorLevel(3, 0.4);
    fm.SetModulationIndex(1.5);
  }

  method NewElectricPianoFMInstrument(sampleRate: SampleRate) returns (fm: FMInstrument)
    ensures fresh(fm)
    ensures fm.Model() == ElectricPianoFMInstrument(sampleRate)
  {
    fm := new FMInstrument(2, FM2OpSimple, sampleRate);
    fm.SetOperatorRatio(0, 1.0);
    fm.SetOperatorEnvelope(0, 0.002, 0.4, 0.3, 0.3);
    fm.SetOperatorLevel(0, 1.0);
    fm.SetOperatorRatio(1, 14.0);
    fm.SetOperatorEnvelope(1, 0.001, 0.2, 0.0, 0.2);
    fm.SetOperatorLevel(1, 0.8);
    fm.SetModulationIndex(3.0);
  }

  method NewFMBassFMInstrument(sampleRate: SampleRate) returns (fm: FMInstrument)
    ensures fresh(fm)
    ensures fm.Model() == BassFMInstrument(sampleRate)
  {
    fm := new FMInstrument(3, FM3OpStack, sampleRate);
    fm.SetOperatorRatio(0, 1.0);
    fm.SetOperatorEnvelope(0, 0.001, 0.2, 0.7, 0.15);
    fm.SetOperatorLevel(0, 1.0);
    fm.SetOperatorRatio(1, 2.01);
    fm.SetOperatorEnvelope(1, 0.001, 0.15, 0.5, 0.1);
    fm.SetOperatorLevel(1, 0.9);
    fm.SetOperatorRatio(2, 4.0);
    fm.SetOperatorEnvelope(2, 0.0005, 0.08, 0.2, 0.05);
    fm.SetOperatorLevel(2, 0.7);
    fm.SetModulationIndex(3.5);
  }

  method NewFMLeadFMInstrument(sampleRate: SampleRate) returns (fm: FMInstrument)
    ensures fresh(fm)
    ensures fm.Model() == LeadFMInstrument(sampleRate)
  {
    fm := new FMInstrument(2, FM2OpSimple, sampleRate);
    fm.SetOperatorRatio(0, 1.0);
    fm.SetOperatorEnvelope(0, 0.005, 0.1, 0.8, 0.15);
    fm.SetOperatorLevel(0, 1.0);
    fm.SetOperatorRatio(1, 3.0);
    fm.SetOperatorEnvelope(1, 0.002, 0.08, 0.6, 0.1);
    fm.SetOperatorLevel(1, 1.0);
    fm.SetModulationIndex(5.0);
  }

  method NewFMBrassFMInstrument(sampleRate: SampleRate) returns (fm: FMInstrument)
    ensures fresh(fm)
    ensures fm.Model() == BrassFMInstrument(sampleRate)
  {
    fm := new FMInstrument(3, FM3OpStack, sampleRate);
    fm.SetOperatorRatio(0, 1.0);
    fm.SetOperatorEnvelope(0, 0.02, 0.15, 0.7, 0.2);
    fm.SetOperatorLevel(0, 1.0);
    fm.SetOperatorRatio(1, 1.5);
    fm.SetOperatorEnvelope(1, 0.015, 0.12, 0.6, 0.15);
    fm.SetOperatorLevel(1, 0.8);
    fm.SetOperatorRatio(2, 3.0);
    fm.SetOperatorEnvelope(2, 0.01, 0.1, 0.5, 0.12);
    fm.SetOperatorLevel(2, 0.6);
    fm.SetModulationIndex(2.0);
  }

  method NewFMBellFMInstrument(sampleRate: SampleRate) returns (fm: FMInstrument)
    ensures fresh(fm)
    ensures fm.Model() == BellFMInstrument(sampleRate)
  {
    fm := new FMInstrument(2, FM2OpSimple, sampleRate);
    fm.SetOperatorRatio(0, 1.0);
    fm.SetOperatorEnvelope(0, 0.001, 0.5, 0.2, 0.4);
    fm.SetOperatorLevel(0, 1.0);
    fm.SetOperatorRatio(1, 11.0);
    fm.SetOperatorEnvelope(1, 0.001, 0.3, 0.0, 0.3);
    fm.SetOperatorLevel(1, 0.9);
    fm.SetModulationIndex(4.0);
  }

  method NewFMArpFMInstrument(sampleRate: SampleRate) returns (fm: FMInstrument)
    ensures fresh(fm)
    ensures fm.Model() == ArpFMInstrument(sampleRate)
  {
    fm := new FMInstrument(2, FM2OpSimple, sampleRate);
    fm.SetOperatorRatio(0, 1.0);
    fm.SetOperatorEnvelope(0, 0.001, 0.05, 0.3, 0.05);
    fm.SetOperatorLevel(0, 1.0);
    fm.SetOperatorRatio(1, 2.0);
    fm.SetOperatorEnvelope(1, 0.001, 0.03, 0.1, 0.03);
    fm.SetOperatorLevel(1, 0.85);
    fm.SetModulationIndex(2.5);
  }
}
