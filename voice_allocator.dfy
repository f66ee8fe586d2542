/** Per-channel polyphony (audio/voice_allocator.go): a fixed pool of voices,
    a map from each sounding note to the index of the voice that plays it,
    and the list of mapped notes, oldest first, from whose head a note is
    stolen when every voice is busy. */
module AudioVoiceAllocator {
  import opened GoMath
  import opened SynthFMInstrument
  import opened SynthVoice
  import Tracker

  /** The FM preset named by an instrument; an unknown name gives the lead. */
  function Preset(name: string, sampleRate: SampleRate): (fm: InstState)
    ensures WellFormed(fm)
  {
    if name == "PIANO" then PianoFMInstrument(sampleRate)
    else if name == "EPIANO" then ElectricPianoFMInstrument(sampleRate)
    else if name == "BASS" then BassFMInstrument(sampleRate)
    else if name == "LEAD" then LeadFMInstrument(sampleRate)
    else if name == "BRASS" then BrassFMInstrument(sampleRate)
    else if name == "BELL" then BellFMInstrument(sampleRate)
    else if name == "ARP" then ArpFMInstrument(sampleRate)
    else LeadFMInstrument(sampleRate)
  }

  /** Names other than the seven presets fall back to the lead. */
  lemma PresetDefault(name: string, sampleRate: SampleRate)
    requires name !in {"PIANO", "EPIANO", "BASS", "LEAD", "BRASS", "BELL", "ARP"}
    ensures Preset(name, sampleRate) == LeadFMInstrument(sampleRate)
  {
  }

  /** The voice built for each slot of the pool: an FM voice on its own copy
      of the preset, or a subtractive voice set to the instrument's waveform
      and envelope. Either way it is silent until its first note. */
  function PoolVoice(inst: Tracker.Instrument, sampleRate: SampleRate): (v: VoiceState)
    ensures !v.IsActive() && v.volume == 1.0
    ensures inst.isFM ==> v.engine == FM(Preset(inst.fmPreset, sampleRate))
    ensures !inst.isFM ==>
      v.engine.Subtractive? && v.engine.osc.waveType == inst.waveType &&
      v.engine.env.Settings() == (inst.attack, inst.decay, inst.sustain, inst.release, sampleRate)
  {
    if inst.isFM then NewFMVoice(Preset(inst.fmPreset, sampleRate))
    else NewVoice(inst.waveType, sampleRate).SetInstrument(inst.waveType, inst.attack, inst.decay, inst.sustain, inst.release)
  }

  predicate NoDuplicates(s: seq<int>)
  {
    forall i, j :: 0 <= i < j < |s| ==> s[i] != s[j]
  }

  /** The index of the first voice that is not sounding, or the pool size. */
  function FirstInactive(vs: seq<VoiceState>): (i: nat)
    ensures i <= |vs|
    ensures forall j :: 0 <= j < i ==> vs[j].IsActive()
    ensures i < |vs| ==> !vs[i].IsActive()
  {
    if vs == [] || !vs[0].IsActive() then 0 else 1 + FirstInactive(vs[1..])
  }

  /** The number of sounding voices. */
  function ActiveCount(vs: seq<VoiceState>): (n: nat)
    ensures n <= |vs|
  {
    if vs == [] then 0
    else ActiveCount(vs[..|vs| - 1]) + (if vs[|vs| - 1].IsActive() then 1 else 0)
  }

  /** The sum of the samples of the sounding voices. */
  function ActiveSum(lib: Libm, vs: seq<VoiceState>): real
  {
    if vs == [] then 0.0
    else ActiveSum(lib, vs[..|vs| - 1]) + (if vs[|vs| - 1].IsActive() then vs[|vs| - 1].Output(lib) else 0.0)
  }

  /** Each voice after one sample: the sounding ones advance. */
  function Advance(vs: seq<VoiceState>): (ws: seq<VoiceState>)
    ensures |ws| == |vs|
  {
    seq(|vs|, i requires 0 <= i < |vs| => if vs[i].IsActive() then vs[i].Next() else vs[i])
  }

  function Average(sum: real, n: nat): real
    requires n > 0
  {
    sum / n as real
  }

  /** The first occurrence of `x` taken out of `s`. */
  function RemoveFirst(s: seq<int>, x: int): (r: seq<int>)
  {
    if s == [] then [] else if s[0] == x then s[1..] else [s[0]] + RemoveFirst(s[1..], x)
  }

  /** The fields of a `VoiceAllocator`. Go's map from notes to `*Voice` pointers is
      a map to indices into the pool. */
  datatype AllocState = AllocState(voices: seq<VoiceState>, noteMap: map<int, nat>, instrument: Tracker.Instrument,
                                   sampleRate: SampleRate, maxVoices: int, activeNotes: seq<int>)
  {
    /** The list holds each note once, the mapped notes are exactly the listed
        ones, and each maps to a voice of the pool. */
    predicate Consistent()
    {
      NoDuplicates(activeNotes)
      && (forall i :: 0 <= i < |activeNotes| ==> activeNotes[i] in noteMap)
      && (forall n :: n in noteMap ==> n in activeNotes)
      && (forall n :: n in noteMap ==> noteMap[n] < |voices|)
    }

    /** Every voice is busy and there is a note to steal. */
    predicate Steals(note: int)
    {
      note !in noteMap && FirstInactive(voices) == |voices| && |activeNotes| > 0
    }

    /** The voice `NoteOn` plays the note on: its own voice when it is mapped,
        else the first silent voice, else the oldest note's voice, else voice 0. */
    function Slot(note: int): (i: nat)
      requires Consistent() && |voices| > 0
      ensures i < |voices|
    {
      if note in noteMap then noteMap[note]
      else if FirstInactive(voices) < |voices| then FirstInactive(voices)
      else if |activeNotes| > 0 then
        var oldest := activeNotes[0];
        assert oldest in noteMap;
        assert noteMap[oldest] < |voices|;
        noteMap[oldest]
      else 0
    }

    /** `NoteOn`. The pool must not be empty: Go indexes voice 0 when nothing
        else is free. */
    function NoteOn(lib: Libm, note: int, velocity: real): (a: AllocState)
      requires Consistent() && |voices| > 0
      ensures a.Consistent()
      ensures a.instrument == instrument && a.sampleRate == sampleRate && a.maxVoices == maxVoices
      ensures note in a.noteMap && a.noteMap[note] == Slot(note)
      ensures a.voices == voices[Slot(note) := voices[Slot(note)].NoteOn(lib, note, velocity)]
      ensures a.voices[a.noteMap[note]].IsActive()
    {
      var i := Slot(note);
      var vs := voices[i := voices[i].NoteOn(lib, note, velocity)];
      if note in noteMap then this.(voices := vs)
      else if Steals(note) then
        var oldest := activeNotes[0];
        StealConsistent(this, note, vs);
        this.(voices := vs, noteMap := (noteMap - {oldest})[note := i], activeNotes := activeNotes[1..] + [note])
      else
        this.(voices := vs, noteMap := noteMap[note := i], activeNotes := activeNotes + [note])
    }

    /** `NoteOff`: a mapped note releases its voice and leaves both the map
        and the list; an unmapped note changes nothing. */
    function NoteOff(note: int): (a: AllocState)
      requires Consistent()
      ensures a.Consistent() && note !in a.noteMap
      ensures note !in noteMap ==> a == this
      ensures note in noteMap ==>
        a.noteMap == noteMap - {note} && a.activeNotes == RemoveFirst(activeNotes, note) &&
        a.voices == voices[noteMap[note] := voices[noteMap[note]].NoteOff()]
      ensures a.instrument == instrument && a.sampleRate == sampleRate && a.maxVoices == maxVoices
    {
      if note !in noteMap then this
      else
        var i := noteMap[note];
        var rest := RemoveFirst(activeNotes, note);
        RemoveFirstMembers(activeNotes, note);
        assert forall j :: 0 <= j < |rest| ==> rest[j] in noteMap - {note} by {
          forall j | 0 <= j < |rest| ensures rest[j] in noteMap - {note} {
            assert rest[j] in rest;
            var k :| 0 <= k < |activeNotes| && activeNotes[k] == rest[j];
          }
        }
        this.(voices := voices[i := voices[i].NoteOff()], noteMap := noteMap - {note}, activeNotes := rest)
    }

    /** `AllNotesOff`: every voice of the pool is released and nothing stays mapped. */
    function AllNotesOff(): (a: AllocState)
      ensures a.Consistent() && a.noteMap == map[] && a.activeNotes == []
      ensures |a.voices| == |voices| && forall i :: 0 <= i < |voices| ==> a.voices[i] == voices[i].NoteOff()
      ensures a.instrument == instrument && a.sampleRate == sampleRate && a.maxVoices == maxVoices
    {
      this.(voices := seq(|voices|, i requires 0 <= i < |voices| => voices[i].NoteOff()),
            noteMap := map[], activeNotes := [])
    }

    /** The sample `Next` returns: the average of the sounding voices, or
        their sum, which is 0, when none sounds. */
    function Mix(lib: Libm): real
    {
      var n := ActiveCount(voices);
      if n > 0 then Average(ActiveSum(lib, voices), n) else ActiveSum(lib, voices)
    }

    /** The state after `Next`. */
    function Next(): (a: AllocState)
      ensures a.(voices := voices) == this && |a.voices| == |voices|
      ensures a.Consistent() <==> Consistent()
    {
      this.(voices := Advance(voices))
    }

    /** `IsActive`: some voice of the pool sounds. */
    predicate AnyActive()
    {
      exists i :: 0 <= i < |voices| && voices[i].IsActive()
    }

    /** `GetVoice`: the voice at an index, or nothing outside the pool. */
    function GetVoice(index: int): (v: Tracker.Option<VoiceState>)
      ensures v.Some? <==> 0 <= index < |voices|
      ensures v.Some? ==> v.value == voices[index]
    {
      if 0 <= index < |voices| then Tracker.Some(voices[index]) else Tracker.None
    }

    /** `GetVoiceForNote`: the voice a note is mapped to, if any. */
    function GetVoiceForNote(note: int): (v: Tracker.Option<VoiceState>)
      requires Consistent()
      ensures v.Some? <==> note in activeNotes
      ensures v.Some? ==> v.value == voices[noteMap[note]]
    {
      if note in noteMap then Tracker.Some(voices[noteMap[note]]) else Tracker.None
    }

    /** `SetVoiceNote`: plays a note on one voice, bypassing the map; an index
        outside the pool does nothing. */
    function SetVoiceNote(lib: Libm, index: int, note: int, velocity: real): (a: AllocState)
      ensures a.(voices := voices) == this && |a.voices| == |voices|
      ensures a.Consistent() <==> Consistent()
      ensures forall j :: 0 <= j < |voices| && j != index ==> a.voices[j] == voices[j]
      ensures 0 <= index < |voices| ==> a.voices[index] == voices[index].NoteOn(lib, note, velocity)
      ensures !(0 <= index < |voices|) ==> a == this
    {
      if 0 <= index < |voices| then this.(voices := voices[index := voices[index].NoteOn(lib, note, velocity)])
      else this
    }

    /** `ReleaseVoice`: releases one voice, bypassing the map, so a note
        mapped to it stays mapped; an index outside the pool does nothing. */
    function ReleaseVoice(index: int): (a: AllocState)
      ensures a.(voices := voices) == this && |a.voices| == |voices|
      ensures a.Consistent() <==> Consistent()
      ensures forall j :: 0 <= j < |voices| && j != index ==> a.voices[j] == voices[j]
      ensures 0 <= index < |voices| ==> a.voices[index] == voices[index].NoteOff()
      ensures !(0 <= index < |voices|) ==> a == this
    {
      if 0 <= index < |voices| then this.(voices := voices[index := voices[index].NoteOff()])
      else this
    }

    /** `PlayChord`: `NoteOn` for each note in turn. */
    function PlayChord(lib: Libm, notes: seq<int>, velocity: real): (a: AllocState)
      requires Consistent() && (|voices| > 0 || notes == [])
      ensures a.Consistent() && |a.voices| == |voices|
      ensures a.instrument == instrument && a.sampleRate == sampleRate && a.maxVoices == maxVoices
      ensures notes != [] ==> notes[|notes| - 1] in a.noteMap
    {
      if notes == [] then this
      else PlayChord(lib, notes[..|notes| - 1], velocity).NoteOn(lib, notes[|notes| - 1], velocity)
    }

    /** `ReleaseChord`: `NoteOff` for each note in turn. */
    function ReleaseChord(notes: seq<int>): (a: AllocState)
      requires Consistent()
      ensures a.Consistent() && |a.voices| == |voices|
      ensures a.instrument == instrument && a.sampleRate == sampleRate && a.maxVoices == maxVoices
    {
      if notes == [] then this else ReleaseChord(notes[..|notes| - 1]).NoteOff(notes[|notes| - 1])
    }
  }

  /** `NewVoiceAllocator`: `maxVoices` silent voices built from the instrument,
      nothing mapped. A negative size makes Go's `make` panic. */
  function NewVoiceAllocator(inst: Tracker.Instrument, sampleRate: SampleRate, maxVoices: int): (a: AllocState)
    requires maxVoices >= 0
    ensures a.Consistent() && |a.voices| == maxVoices && a.maxVoices == maxVoices
    ensures a.noteMap == map[] && a.activeNotes == [] && !a.AnyActive()
    ensures forall i :: 0 <= i < maxVoices ==> a.voices[i] == PoolVoice(inst, sampleRate)
  {
    AllocState(seq(maxVoices, _ => PoolVoice(inst, sampleRate)), map[], inst, sampleRate, maxVoices, [])
  }

  // ---------------------------------------------------------------------------
  // The list helpers

  lemma {:induction false} RemoveFirstMembers(s: seq<int>, x: int)
    requires NoDuplicates(s)
    ensures NoDuplicates(RemoveFirst(s, x))
    ensures forall y :: y in RemoveFirst(s, x) <==> y in s && y != x
  {
    if s != [] {
      RemoveFirstMembers(s[1..], x);
      assert forall y :: y in s <==> y == s[0] || y in s[1..];
      if s[0] != x {
        var r := RemoveFirst(s[1..], x);
        assert RemoveFirst(s, x) == [s[0]] + r;
        assert s[0] !in s[1..];
        forall i, j | 0 <= i < j < |[s[0]] + r| ensures ([s[0]] + r)[i] != ([s[0]] + r)[j] {
          if i > 0 {
            assert ([s[0]] + r)[i] == r[i - 1];
          } else {
            assert ([s[0]] + r)[j] in r;
          }
        }
      } else {
        assert s[0] !in s[1..];
      }
    }
  }

  /** Taking out the first `x` is cutting `s` at the first index holding `x`;
      the other notes keep their order. */
  lemma {:induction false} RemoveFirstAt(s: seq<int>, x: int, k: nat)
    requires k < |s| && s[k] == x && forall j :: 0 <= j < k ==> s[j] != x
    ensures RemoveFirst(s, x) == s[..k] + s[k + 1..]
  {
    if k > 0 {
      RemoveFirstAt(s[1..], x, k - 1);
      assert s[1..][..k - 1] == s[1..k] && s[1..][k..] == s[k + 1..];
      assert s[..k] == [s[0]] + s[1..k];
    }
  }

  lemma {:induction false} RemoveFirstAbsent(s: seq<int>, x: int)
    requires x !in s
    ensures RemoveFirst(s, x) == s
  {
    if s != [] {
      assert s[1..] == s[1..];
      assert forall y :: y in s[1..] ==> y in s;
      RemoveFirstAbsent(s[1..], x);
      assert s == [s[0]] + s[1..];
    }
  }

  // ---------------------------------------------------------------------------
  // Allocation

  /** A note already mapped is retriggered on its own voice; map and list stay. */
  lemma NoteOnRetriggers(lib: Libm, a: AllocState, note: int, velocity: real)
    requires a.Consistent() && |a.voices| > 0 && note in a.noteMap
    ensures var b := a.NoteOn(lib, note, velocity);
      b.noteMap == a.noteMap && b.activeNotes == a.activeNotes &&
      b.voices == a.voices[a.noteMap[note] := a.voices[a.noteMap[note]].NoteOn(lib, note, velocity)]
  {
  }

  /** A new note goes to the first voice in pool order that is not sounding,
      and joins the tail of the list. */
  lemma NoteOnTakesFirstFree(lib: Libm, a: AllocState, note: int, velocity: real, i: nat)
    requires a.Consistent() && note !in a.noteMap
    requires i < |a.voices| && !a.voices[i].IsActive() && forall j :: 0 <= j < i ==> a.voices[j].IsActive()
    ensures var b := a.NoteOn(lib, note, velocity);
      b.noteMap == a.noteMap[note := i] && b.activeNotes == a.activeNotes + [note] &&
      b.voices == a.voices[i := a.voices[i].NoteOn(lib, note, velocity)]
  {
    var f := FirstInactive(a.voices);
    assert f == i;
  }

  /** With every voice sounding, the oldest note is stolen: it leaves the map
      and the head of the list, and its voice plays the new note. */
  lemma NoteOnStealsOldest(lib: Libm, a: AllocState, note: int, velocity: real)
    requires a.Consistent() && note !in a.noteMap && |a.activeNotes| > 0
    requires forall j :: 0 <= j < |a.voices| ==> a.voices[j].IsActive()
    ensures |a.voices| > 0
    ensures var b := a.NoteOn(lib, note, velocity);
      var oldest := a.activeNotes[0];
      var i := a.noteMap[oldest];
      oldest !in b.noteMap && b.noteMap[note] == i &&
      b.activeNotes == a.activeNotes[1..] + [note] &&
      b.voices == a.voices[i := a.voices[i].NoteOn(lib, note, velocity)] &&
      forall n :: n in a.noteMap && n != oldest ==> n in b.noteMap && b.noteMap[n] == a.noteMap[n]
  {
    var oldest := a.activeNotes[0];
    assert oldest in a.noteMap;
    assert a.noteMap[oldest] < |a.voices|;
    var f := FirstInactive(a.voices);
    assert f == |a.voices|;
    assert a.Steals(note);
  }

  /** With every voice sounding and nothing mapped, voice 0 is reused. */
  lemma NoteOnFallsBackToFirstVoice(lib: Libm, a: AllocState, note: int, velocity: real)
    requires a.Consistent() && |a.voices| > 0 && a.activeNotes == []
    requires forall j :: 0 <= j < |a.voices| ==> a.voices[j].IsActive()
    ensures var b := a.NoteOn(lib, note, velocity);
      b.noteMap == map[note := 0] && b.activeNotes == [note] &&
      b.voices == a.voices[0 := a.voices[0].NoteOn(lib, note, velocity)]
  {
    assert forall n :: n in a.noteMap ==> n in a.activeNotes;
    assert forall n :: n !in a.noteMap;
    assert a.noteMap.Keys == {};
    var f := FirstInactive(a.voices);
    assert f == |a.voices|;
  }

  /** `NoteOff` removes just its note from the list: the others keep their order. */
  lemma NoteOffKeepsOrder(a: AllocState, note: int)
    requires a.Consistent() && note in a.noteMap
    ensures exists k :: (0 <= k < |a.activeNotes| && a.activeNotes[k] == note &&
                         a.NoteOff(note).activeNotes == a.activeNotes[..k] + a.activeNotes[k + 1..])
  {
    assert note in a.activeNotes;
    var k :| 0 <= k < |a.activeNotes| && a.activeNotes[k] == note;
    assert forall j :: 0 <= j < k ==> a.activeNotes[j] != note;
    RemoveFirstAt(a.activeNotes, note, k);
  }

  // ---------------------------------------------------------------------------
  // Chords

  /** Stealing the oldest note for a new one keeps the pool consistent. */
  lemma StealConsistent(a: AllocState, note: int, vs: seq<VoiceState>)
    requires a.Consistent() && note !in a.noteMap && |a.activeNotes| > 0 && |vs| == |a.voices|
    ensures var oldest := a.activeNotes[0];
      a.noteMap[oldest] < |vs| &&
      a.(voices := vs, noteMap := (a.noteMap - {oldest})[note := a.noteMap[oldest]],
         activeNotes := a.activeNotes[1..] + [note]).Consistent()
  {
    var oldest := a.activeNotes[0];
    assert oldest in a.noteMap;
    var b := a.(voices := vs, noteMap := (a.noteMap - {oldest})[note := a.noteMap[oldest]],
                activeNotes := a.activeNotes[1..] + [note]);
    forall n | n in b.noteMap ensures n in b.activeNotes {
      if n != note {
        var k :| 0 <= k < |a.activeNotes| && a.activeNotes[k] == n;
        assert k > 0 && b.activeNotes[k - 1] == n;
      }
    }
    assert forall k :: 0 <= k < |b.activeNotes| - 1 ==> b.activeNotes[k] == a.activeNotes[k + 1];
  }

  /** A pool whose voices are all silent and that maps nothing. */
  predicate Idle(a: AllocState)
  {
    a.noteMap == map[] && a.activeNotes == [] && forall j :: 0 <= j < |a.voices| ==> !a.voices[j].IsActive()
  }

  /** From an idle pool, up to one note per voice: the notes take voices
      0, 1, 2, … in order and the list is the chord itself. */
  lemma {:induction false} ChordFillsPool(lib: Libm, a: AllocState, notes: seq<int>, velocity: real)
    requires a.Consistent() && Idle(a) && NoDuplicates(notes) && |notes| <= |a.voices|
    ensures var b := a.PlayChord(lib, notes, velocity);
      b.activeNotes == notes &&
      (forall j :: 0 <= j < |notes| ==> notes[j] in b.noteMap && b.noteMap[notes[j]] == j) &&
      (forall j :: 0 <= j < |notes| ==> b.voices[j].IsActive()) &&
      (forall j :: |notes| <= j < |a.voices| ==> b.voices[j] == a.voices[j])
    decreases |notes|
  {
    if notes != [] {
      var init := notes[..|notes| - 1];
      var x := notes[|notes| - 1];
      assert NoDuplicates(init);
      ChordFillsPool(lib, a, init, velocity);
      var b := a.PlayChord(lib, init, velocity);
      assert x !in b.noteMap;
      NoteOnTakesFirstFree(lib, b, x, velocity, |init|);
      ChordStep(lib, a, b, b.NoteOn(lib, x, velocity), init, x, velocity);
    }
  }

  /** One step of `ChordFillsPool`: the next note takes the next voice. */
  lemma ChordStep(lib: Libm, a: AllocState, b: AllocState, c: AllocState, init: seq<int>, x: int, velocity: real)
    requires |init| < |a.voices| == |b.voices|
    requires b.activeNotes == init
    requires forall j :: 0 <= j < |init| ==> init[j] in b.noteMap && b.noteMap[init[j]] == j
    requires forall j :: 0 <= j < |init| ==> b.voices[j].IsActive()
    requires forall j :: |init| <= j < |a.voices| ==> b.voices[j] == a.voices[j]
    requires c.noteMap == b.noteMap[x := |init|] && c.activeNotes == b.activeNotes + [x]
    requires c.voices == b.voices[|init| := b.voices[|init|].NoteOn(lib, x, velocity)]
    requires c.voices[|init|].IsActive()
    requires forall j :: 0 <= j < |init| ==> init[j] != x
    ensures var notes := init + [x];
      c.activeNotes == notes &&
      (forall j :: 0 <= j < |notes| ==> notes[j] in c.noteMap && c.noteMap[notes[j]] == j) &&
      (forall j :: 0 <= j < |notes| ==> c.voices[j].IsActive()) &&
      (forall j :: |notes| <= j < |a.voices| ==> c.voices[j] == a.voices[j])
  {
  }

  /** On an idle pool, one distinct note more than there are voices leaves
      all but the first note sounding, in order: the first note's voice, the
      oldest, is stolen by the last. */
  lemma ChordOverflowStealsFirst(lib: Libm, a: AllocState, notes: seq<int>, velocity: real)
    requires a.Consistent() && Idle(a) && |a.voices| > 0
    requires NoDuplicates(notes) && |notes| == |a.voices| + 1
    ensures var b := a.PlayChord(lib, notes, velocity);
      b.activeNotes == notes[1..] && notes[0] !in b.noteMap && b.noteMap[notes[|notes| - 1]] == 0
  {
    var first := notes[..|notes| - 1];
    var x := notes[|notes| - 1];
    assert NoDuplicates(first);
    ChordFillsPool(lib, a, first, velocity);
    var b := a.PlayChord(lib, first, velocity);
    assert x !in first;
    assert x !in b.noteMap;
    NoteOnStealsOldest(lib, b, x, velocity);
    DropFirstKeepLast(notes);
  }

  /** A helper for `ChordOverflowStealsFirst`: dropping the head before or after the last note is the same. */
  lemma DropFirstKeepLast(s: seq<int>)
    requires |s| >= 2
    ensures s[..|s| - 1][1..] + [s[|s| - 1]] == s[1..]
  {
  }

  /** Five distinct notes on an idle pool of four voices. */
  lemma FiveNotesOnFourVoices(lib: Libm, a: AllocState, n1: int, n2: int, n3: int, n4: int, n5: int, velocity: real)
    requires a.Consistent() && Idle(a) && |a.voices| == 4
    requires NoDuplicates([n1, n2, n3, n4, n5])
    ensures var b := a.PlayChord(lib, [n1, n2, n3, n4, n5], velocity);
      b.activeNotes == [n2, n3, n4, n5] && n1 !in b.noteMap && b.noteMap[n5] == 0
  {
    ChordOverflowStealsFirst(lib, a, [n1, n2, n3, n4, n5], velocity);
  }

  /** After `ReleaseChord`, none of its notes is mapped, and every other
      note is still mapped to the same voice. */
  lemma {:induction false} ReleaseChordUnmaps(a: AllocState, notes: seq<int>)
    requires a.Consistent()
    ensures var b := a.ReleaseChord(notes);
      (forall j :: 0 <= j < |notes| ==> notes[j] !in b.noteMap) &&
      (forall n :: n in a.noteMap && n !in notes ==> n in b.noteMap && b.noteMap[n] == a.noteMap[n]) &&
      (forall n :: n in b.noteMap ==> n in a.noteMap)
    decreases |notes|
  {
    if notes != [] {
      var init := notes[..|notes| - 1];
      ReleaseChordUnmaps(a, init);
      assert forall j :: 0 <= j < |init| ==> notes[j] == init[j];
      assert forall n :: n !in notes ==> n !in init;
    }
  }

  /** Releasing the chord just played on an idle pool maps nothing again. */
  lemma ChordOnThenOff(lib: Libm, a: AllocState, notes: seq<int>, velocity: real)
    requires a.Consistent() && Idle(a) && NoDuplicates(notes) && |notes| <= |a.voices|
    ensures var b := a.PlayChord(lib, notes, velocity).ReleaseChord(notes);
      b.noteMap == map[] && b.activeNotes == []
  {
    ChordFillsPool(lib, a, notes, velocity);
    var p := a.PlayChord(lib, notes, velocity);
    ReleaseChordUnmaps(p, notes);
    AllReleased(p, p.ReleaseChord(notes), notes);
  }

  /** A pool that has released every note listed in an earlier state maps nothing. */
  lemma AllReleased(p: AllocState, b: AllocState, notes: seq<int>)
    requires p.Consistent() && b.Consistent() && p.activeNotes == notes
    requires forall j :: 0 <= j < |notes| ==> notes[j] !in b.noteMap
    requires forall n :: n in b.noteMap ==> n in p.noteMap
    ensures b.noteMap == map[] && b.activeNotes == []
  {
    assert forall n :: n !in b.noteMap;
    assert b.noteMap.Keys == {};
    MappedCount(b);
  }

  // ---------------------------------------------------------------------------
  // Mixing

  /** `IsActive` agrees with the count of sounding voices. */
  lemma {:induction false} AnyActiveCount(vs: seq<VoiceState>)
    ensures ActiveCount(vs) > 0 <==> exists i :: 0 <= i < |vs| && vs[i].IsActive()
  {
    if vs != [] {
      var init := vs[..|vs| - 1];
      AnyActiveCount(init);
      assert forall i :: 0 <= i < |init| ==> init[i] == vs[i];
      if ActiveCount(init) > 0 {
        var i :| 0 <= i < |init| && init[i].IsActive();
        assert vs[i].IsActive();
      }
    }
  }

  /** With no voice sounding, `Next` returns 0. */
  lemma {:induction false} SilentPoolMixesZero(lib: Libm, vs: seq<VoiceState>)
    requires forall i :: 0 <= i < |vs| ==> !vs[i].IsActive()
    ensures ActiveCount(vs) == 0 && ActiveSum(lib, vs) == 0.0
  {
    if vs != [] {
      var init := vs[..|vs| - 1];
      assert forall i :: 0 <= i < |init| ==> init[i] == vs[i];
      SilentPoolMixesZero(lib, init);
    }
  }

  lemma {:induction false} SumBounded(lib: Libm, vs: seq<VoiceState>, b: real)
    requires b >= 0.0
    requires forall i :: 0 <= i < |vs| && vs[i].IsActive() ==> -b <= vs[i].Output(lib) <= b
    ensures -Scaled(ActiveCount(vs), b) <= ActiveSum(lib, vs) <= Scaled(ActiveCount(vs), b)
  {
    if vs != [] {
      var init := vs[..|vs| - 1];
      assert forall i :: 0 <= i < |init| ==> init[i] == vs[i];
      SumBounded(lib, init, b);
      ScaledStep(ActiveCount(init), b);
    }
  }

  /** The running sum and count of `Next` after one more voice. */
  lemma PrefixStep(lib: Libm, vs: seq<VoiceState>, k: nat)
    requires k < |vs|
    ensures ActiveSum(lib, vs[..k + 1]) == ActiveSum(lib, vs[..k]) + (if vs[k].IsActive() then vs[k].Output(lib) else 0.0)
    ensures ActiveCount(vs[..k + 1]) == ActiveCount(vs[..k]) + (if vs[k].IsActive() then 1 else 0)
  {
    assert vs[..k + 1][..k] == vs[..k];
  }

  function Scaled(n: nat, b: real): real
  {
    n as real * b
  }

  /** A helper for `SumBounded`: one more voice adds one more bound. */
  lemma ScaledStep(n: nat, b: real)
    ensures Scaled(n + 1, b) == Scaled(n, b) + b
  {
  }

  lemma AverageBounded(sum: real, n: nat, b: real)
    requires n > 0 && -Scaled(n, b) <= sum <= Scaled(n, b)
    ensures -b <= Average(sum, n) <= b
  {
    assert Average(sum, n) * n as real == sum;
  }

  /** Dividing by the number of sounding voices keeps the mix within the
      bound of the loudest voice: it never clips where no voice does. */
  lemma MixBounded(lib: Libm, a: AllocState, b: real)
    requires b >= 0.0
    requires forall i :: 0 <= i < |a.voices| && a.voices[i].IsActive() ==> -b <= a.voices[i].Output(lib) <= b
    ensures -b <= a.Mix(lib) <= b
  {
    SumBounded(lib, a.voices, b);
    var n := ActiveCount(a.voices);
    if n > 0 {
      AverageBounded(ActiveSum(lib, a.voices), n, b);
      assert a.Mix(lib) == Average(ActiveSum(lib, a.voices), n);
    } else {
      assert Scaled(n, b) == 0.0;
    }
  }

  // ---------------------------------------------------------------------------
  // The allocator object

  class VoiceAllocator {
    var voices: seq<VoiceState>
    var noteMap: map<int, nat>
    var instrument: Tracker.Instrument
    var sampleRate: SampleRate
    var maxVoices: int
    var activeNotes: seq<int>

    function Model(): AllocState
      reads this
    {
      AllocState(voices, noteMap, instrument, sampleRate, maxVoices, activeNotes)
    }

    predicate Valid()
      reads this
    {
      Model().Consistent()
    }

    /** `NewVoiceAllocator`. */
    constructor (inst: Tracker.Instrument, rate: SampleRate, maxVoices: int)
      requires maxVoices >= 0
      ensures Valid() && Model() == NewVoiceAllocator(inst, rate, maxVoices)
    {
      var vs: seq<VoiceState> := [];
      for i := 0 to maxVoices
        invariant |vs| == i && forall j :: 0 <= j < i ==> vs[j] == PoolVoice(inst, rate)
      {
        vs := vs + [PoolVoice(inst, rate)];
      }
      voices, noteMap, instrument, sampleRate := vs, map[], inst, rate;
      this.maxVoices, activeNotes := maxVoices, [];
    }

    method NoteOn(lib: Libm, note: int, velocity: real)
      requires Valid() && |voices| > 0
      modifies this
      ensures Model() == old(Model()).NoteOn(lib, note, velocity) && Valid()
    {
      ghost var m := Model();
      if note in noteMap {
        var i := noteMap[note];
        voices := voices[i := voices[i].NoteOn(lib, note, velocity)];
        return;
      }
      var selected := -1;
      var k := 0;
      while k < |voices|
        invariant 0 <= k <= |voices| && forall j :: 0 <= j < k ==> voices[j].IsActive()
      {
        if !voices[k].IsActive() {
          selected := k;
          break;
        }
        k := k + 1;
      }
      assert selected >= 0 ==> selected == FirstInactive(voices);
      if selected < 0 {
        var f := FirstInactive(voices);
        assert f == |voices|;
        if |activeNotes| > 0 {
          var oldest := activeNotes[0];
          selected := noteMap[oldest];
          assert m.Steals(note) && selected == m.Slot(note);
          noteMap := noteMap - {oldest};
          activeNotes := activeNotes[1..];
        } else {
          selected := 0;
        }
      }
      assert selected == m.Slot(note);
      voices := voices[selected := voices[selected].NoteOn(lib, note, velocity)];
      noteMap := noteMap[note := selected];
      activeNotes := activeNotes + [note];
    }

    method NoteOff(note: int)
      requires Valid()
      modifies this
      ensures Valid() && Model() == old(Model()).NoteOff(note)
    {
      if note in noteMap {
        ghost var target := Model().NoteOff(note);
        var i := noteMap[note];
        voices := voices[i := voices[i].NoteOff()];
        noteMap := noteMap - {note};
        var notes := activeNotes;
        var k := 0;
        while k < |notes|
          invariant 0 <= k <= |notes| && forall j :: 0 <= j < k ==> notes[j] != note
          invariant notes == old(activeNotes)
        {
          if notes[k] == note {
            RemoveFirstAt(notes, note, k);
            notes := notes[..k] + notes[k + 1..];
            break;
          }
          k := k + 1;
        }
        if k == |old(activeNotes)| {
          assert false;
        }
        activeNotes := notes;
        assert Model() == target;
      }
    }

    method AllNotesOff()
      requires Valid()
      modifies this
      ensures Valid() && Model() == old(Model()).AllNotesOff()
    {
      var k := 0;
      while k < |voices|
        invariant 0 <= k <= |voices| && |voices| == |old(voices)|
        invariant forall j :: 0 <= j < k ==> voices[j] == old(voices[j]).NoteOff()
        invariant forall j :: k <= j < |voices| ==> voices[j] == old(voices[j])
        invariant noteMap == old(noteMap) && activeNotes == old(activeNotes)
        invariant instrument == old(instrument) && sampleRate == old(sampleRate) && maxVoices == old(maxVoices)
      {
        voices := voices[k := voices[k].NoteOff()];
        k := k + 1;
      }
      assert voices == old(Model()).AllNotesOff().voices;
      noteMap := map[];
      activeNotes := activeNotes[..0];
    }

    method Next(lib: Libm) returns (sample: real)
      requires Valid()
      modifies this
      ensures Valid() && sample == old(Model()).Mix(lib) && Model() == old(Model()).Next()
    {
      ghost var vs := voices;
      sample := 0.0;
      var activeCount := 0;
      var k := 0;
      while k < |voices|
        invariant 0 <= k <= |voices| && |voices| == |vs|
        invariant sample == ActiveSum(lib, vs[..k]) && activeCount == ActiveCount(vs[..k])
        invariant forall j :: 0 <= j < k ==> voices[j] == Advance(vs)[j]
        invariant forall j :: k <= j < |voices| ==> voices[j] == vs[j]
        invariant noteMap == old(noteMap) && activeNotes == old(activeNotes) && vs == old(voices)
        invariant instrument == old(instrument) && sampleRate == old(sampleRate) && maxVoices == old(maxVoices)
      {
        PrefixStep(lib, vs, k);
        if voices[k].IsActive() {
          sample := sample + voices[k].Output(lib);
          activeCount := activeCount + 1;
          voices := voices[k := voices[k].Next()];
        }
        k := k + 1;
      }
      assert vs[..k] == vs;
      assert voices == Advance(vs);
      if activeCount > 0 {
        sample := sample / activeCount as real;
      }
    }

    method IsActive() returns (b: bool)
      requires Valid()
      ensures b == Model().AnyActive()
    {
      for k := 0 to |voices|
        invariant forall j :: 0 <= j < k ==> !voices[j].IsActive()
      {
        if voices[k].IsActive() {
          return true;
        }
      }
      return false;
    }

    /** `GetVoices`: the pool itself. */
    method GetVoices() returns (vs: seq<VoiceState>)
      ensures vs == Model().voices
    {
      vs := voices;
    }

    method GetVoice(index: int) returns (v: Tracker.Option<VoiceState>)
      ensures v == Model().GetVoice(index)
    {
      if index >= 0 && index < |voices| {
        return Tracker.Some(voices[index]);
      }
      return Tracker.None;
    }

    /** `GetActiveNotes`: a copy of the list, oldest first. */
    method GetActiveNotes() returns (notes: seq<int>)
      ensures notes == Model().activeNotes
    {
      notes := [];
      for i := 0 to |activeNotes|
        invariant notes == activeNotes[..i]
      {
        notes := notes + [activeNotes[i]];
      }
    }

    /** `GetActiveVoiceCount`: the length of the list, which is also the
        number of mapped notes. */
    method GetActiveVoiceCount() returns (n: int)
      requires Valid()
      ensures n == |Model().activeNotes| && n == |Model().noteMap.Keys|
    {
      MappedCount(Model());
      n := |activeNotes|;
    }

    method GetVoiceForNote(note: int) returns (v: Tracker.Option<VoiceState>)
      requires Valid()
      ensures v == Model().GetVoiceForNote(note)
    {
      if note in noteMap {
        return Tracker.Some(voices[noteMap[note]]);
      }
      return Tracker.None;
    }

    method SetVoiceNote(lib: Libm, index: int, note: int, velocity: real)
      requires Valid()
      modifies this
      ensures Valid() && Model() == old(Model()).SetVoiceNote(lib, index, note, velocity)
    {
      if index >= 0 && index < |voices| {
        voices := voices[index := voices[index].NoteOn(lib, note, velocity)];
      }
    }

    method ReleaseVoice(index: int)
      requires Valid()
      modifies this
      ensures Valid() && Model() == old(Model()).ReleaseVoice(index)
    {
      if index >= 0 && index < |voices| {
        voices := voices[index := voices[index].NoteOff()];
      }
    }

    method GetMaxVoices() returns (n: int)
      ensures n == Model().maxVoices
    {
      n := maxVoices;
    }

    method PlayChord(lib: Libm, notes: seq<int>, velocity: real)
      requires Valid() && (|voices| > 0 || notes == [])
      modifies this
      ensures Valid() && Model() == old(Model()).PlayChord(lib, notes, velocity)
    {
      for i := 0 to |notes|
        invariant Valid() && Model() == old(Model()).PlayChord(lib, notes[..i], velocity)
        invariant |voices| == |old(voices)|
      {
        assert notes[..i + 1][..i] == notes[..i];
        NoteOn(lib, notes[i], velocity);
      }
      assert notes[..|notes|] == notes;
    }

    method ReleaseChord(notes: seq<int>)
      requires Valid()
      modifies this
      ensures Valid() && Model() == old(Model()).ReleaseChord(notes)
    {
      for i := 0 to |notes|
        invariant Valid() && Model() == old(Model()).ReleaseChord(notes[..i])
      {
        assert notes[..i + 1][..i] == notes[..i];
        NoteOff(notes[i]);
      }
      assert notes[..|notes|] == notes;
    }
  }

  /** The list and the map hold the same number of notes. */
  lemma MappedCount(a: AllocState)
    requires a.Consistent()
    ensures |a.noteMap.Keys| == |a.activeNotes|
  {
    var listed := set n | n in a.activeNotes;
    forall n | n in listed ensures n in a.noteMap {
      var k :| 0 <= k < |a.activeNotes| && a.activeNotes[k] == n;
    }
    forall n | n in a.noteMap ensures n in listed {
      assert n in a.activeNotes;
    }
    assert a.noteMap.Keys == listed;
    DistinctCount(a.activeNotes);
  }

  lemma {:induction false} DistinctCount(s: seq<int>)
    requires NoDuplicates(s)
    ensures |set n | n in s| == |s|
  {
    if s != [] {
      var init := s[..|s| - 1];
      var x := s[|s| - 1];
      assert NoDuplicates(init);
      DistinctCount(init);
      assert x !in init;
      assert (set n | n in s) == (set n | n in init) + {x} by {
        assert s == init + [x];
      }
    }
  }
}
