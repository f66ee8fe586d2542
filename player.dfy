/** The sequencer (audio/player.go): a cursor over the module's sequence that
    triggers each row's notes on one voice pool per channel, and mixes the
    pools into one mono sample per call. The cursor is pure integer state
    (`Cursor`, `Tick`); the pools are `AllocState` values. */
module AudioPlayer {
  import opened GoMath
  import opened SynthOscillator
  import opened SynthVoice
  import opened AudioVoiceAllocator
  import Tracker

  /** `NewPlayer` builds this many channels, each a pool of `MaxPolyphony` voices. */
  const NumChannels: nat := 8
  const MaxPolyphony: nat := 4

  /** The instrument of a channel the module gives none. */
  const DefaultInstrument: Tracker.Instrument :=
    Tracker.Instrument("Default", Square, 0.01, 0.1, 0.6, 0.2, false, "", 0, map[])

  /** The instrument of channel `i`: the module's `i`-th, or the default. */
  function ChannelInstrument(m: Tracker.TrackerModule, i: nat): Tracker.Instrument
  {
    if i < |m.instruments| then m.instruments[i] else DefaultInstrument
  }

  /** `samplesPerRow`: a beat is four rows, and the product is truncated
      toward zero. A tempo of 0 makes Go convert an infinity to an integer,
      whose value the language leaves to the implementation. */
  function SamplesPerRow(tempo: int, rate: real): (n: int)
    requires tempo != 0
    ensures var x := 60.0 / tempo as real / 4.0 * rate;
      0.0 <= x ==> 0 <= n && n as real <= x < n as real + 1.0
  {
    var x := 60.0 / tempo as real / 4.0 * rate;
    TruncBounds(x);
    Trunc(x)
  }

  /** 120 beats a minute at 44100 Hz: 5512.5 samples a row, truncated. */
  lemma SamplesPerRowAt120()
    ensures SamplesPerRow(120, 44100.0) == 5512
  {
    assert 60.0 / 120 as real / 4.0 * 44100.0 == 5512.5;
  }

  // ---------------------------------------------------------------------------
  // The cursor

  /** Where playback is: the sequence entry, the row of its pattern, the
      sample within the row, and whether the sequence has ended. */
  datatype Cursor = Cursor(pos: int, row: int, counter: int, done: bool)

  /** The cursor of a new or reset player. */
  const Start: Cursor := Cursor(0, 0, 0, false)

  /** The cursor's integers never go negative. */
  predicate Placed(c: Cursor)
  {
    c.pos >= 0 && c.row >= 0 && c.counter >= 0
  }

  /** Go indexes the pattern list with every sequence entry it reaches, so a
      negative entry panics: a module the player can run has none. */
  predicate Playable(m: Tracker.TrackerModule)
  {
    forall j :: 0 <= j < |m.sequence| ==> m.sequence[j] >= 0
  }

  /** The entry under the cursor names a pattern of the mod. */
  predicate OnPattern(m: Tracker.TrackerModule, c: Cursor)
  {
    0 <= c.pos < |m.sequence| && 0 <= m.sequence[c.pos] < |m.patterns|
  }

  /** The cursor after one call of `Next`. A finished cursor stays put.
      Otherwise the counter steps; at `spr` it restarts and the row steps;
      when the row reaches the pattern's `Rows` the next entry starts, and
      the player is done once there is none. An entry that names no pattern
      keeps the position where it is. */
  function Tick(m: Tracker.TrackerModule, spr: int, c: Cursor): (d: Cursor)
    requires Playable(m) && Placed(c)
    ensures Placed(d) && d.pos >= c.pos
  {
    if c.done then c
    else if c.counter + 1 < spr then c.(counter := c.counter + 1)
    else if c.pos < |m.sequence| && m.sequence[c.pos] < |m.patterns|
         && c.row + 1 >= m.patterns[m.sequence[c.pos]].rows then
      Cursor(c.pos + 1, 0, 0, c.pos + 1 >= |m.sequence|)
    else c.(counter := 0, row := c.row + 1)
  }

  /** The cursor after `k` calls of `Next`. */
  function Ticks(m: Tracker.TrackerModule, spr: int, c: Cursor, k: nat): (d: Cursor)
    requires Playable(m) && Placed(c)
    ensures Placed(d)
  {
    if k == 0 then c else Tick(m, spr, Ticks(m, spr, c, k - 1))
  }

  /** The position moves only off an entry that names a pattern whose last
      row has just ended, and only by one; `done` is set exactly when the
      position moves past the last entry. */
  lemma TickMoves(m: Tracker.TrackerModule, spr: int, c: Cursor)
    requires Playable(m) && Placed(c)
    ensures var d := Tick(m, spr, c);
      (d.pos == c.pos && d.done == c.done) ||
      (!c.done && OnPattern(m, c) && c.counter + 1 >= spr && c.row + 1 >= m.patterns[m.sequence[c.pos]].rows &&
       d == Cursor(c.pos + 1, 0, 0, c.pos + 1 >= |m.sequence|))
    ensures var d := Tick(m, spr, c);
      d.done <==> c.done || (d.pos == c.pos + 1 && d.pos >= |m.sequence|)
  {
  }

  /** With `spr >= 1` the counter stays in `[0, spr)` however long the player runs. */
  lemma {:induction false} CounterInRange(m: Tracker.TrackerModule, spr: int, c: Cursor, k: nat)
    requires Playable(m) && Placed(c) && 0 <= c.counter < spr
    ensures 0 <= Ticks(m, spr, c, k).counter < spr
  {
    if k > 0 {
      CounterInRange(m, spr, c, k - 1);
    }
  }

  /** A finished player never changes again. */
  lemma {:induction false} DoneIsFinal(m: Tracker.TrackerModule, spr: int, c: Cursor, k: nat)
    requires Playable(m) && Placed(c) && c.done
    ensures Ticks(m, spr, c, k) == c
  {
    if k > 0 {
      DoneIsFinal(m, spr, c, k - 1);
    }
  }

  /** A position past the sequence, or on an entry that names no pattern,
      never moves, so such a player never finishes: an empty sequence and
      an invalid entry play forever. */
  lemma {:induction false} StuckNeverFinishes(m: Tracker.TrackerModule, spr: int, c: Cursor, k: nat)
    requires Playable(m) && Placed(c) && !c.done && !OnPattern(m, c)
    ensures Ticks(m, spr, c, k).pos == c.pos && !Ticks(m, spr, c, k).done
  {
    if k > 0 {
      StuckNeverFinishes(m, spr, c, k - 1);
    }
  }

  /** Running `a` ticks and then `b` more is running `a + b`. */
  lemma {:induction false} TicksAdd(m: Tracker.TrackerModule, spr: int, c: Cursor, a: nat, b: nat)
    requires Playable(m) && Placed(c)
    ensures Ticks(m, spr, c, a + b) == Ticks(m, spr, Ticks(m, spr, c, a), b)
  {
    if b > 0 {
      TicksAdd(m, spr, c, a, b - 1);
    }
  }

  /** Within a row only the counter moves. */
  lemma {:induction false} CounterTicks(m: Tracker.TrackerModule, spr: int, c: Cursor, j: nat)
    requires Playable(m) && Placed(c) && !c.done && c.counter + j < spr
    ensures Ticks(m, spr, c, j) == c.(counter := c.counter + j)
  {
    if j > 0 {
      CounterTicks(m, spr, c, j - 1);
    }
  }

  /** One whole row: `spr` calls, the last of which moves the row on. */
  lemma RowTicks(m: Tracker.TrackerModule, spr: int, c: Cursor)
    requires Playable(m) && Placed(c) && !c.done && c.counter == 0 && spr >= 1
    ensures Ticks(m, spr, c, spr) == Tick(m, spr, c.(counter := spr - 1))
    ensures forall k :: 0 <= k < spr ==> !Ticks(m, spr, c, k).done
  {
    CounterTicks(m, spr, c, spr - 1);
    forall k | 0 <= k < spr ensures !Ticks(m, spr, c, k).done {
      CounterTicks(m, spr, c, k);
    }
  }

  /** The calls a row lasts: `spr`, or one when `spr` is not positive, as the
      counter then restarts on every call. */
  function RowLength(spr: int): int
  {
    if spr >= 1 then spr else 1
  }

  /** The rows a pattern lasts: its `Rows`, or one when that is not positive,
      as the row test then passes after the first row. */
  function PatternLength(rows: int): int
  {
    if rows >= 1 then rows else 1
  }

  /** A row length that is not positive counts as one: the counter test of
      `Next` fails at once either way. */
  lemma TickRowLength(m: Tracker.TrackerModule, spr: int, c: Cursor)
    requires Playable(m) && Placed(c)
    ensures Tick(m, spr, c) == Tick(m, RowLength(spr), c)
  {
  }

  /** `TickRowLength` for any number of ticks. */
  lemma {:induction false} TicksRowLength(m: Tracker.TrackerModule, spr: int, c: Cursor, k: nat)
    requires Playable(m) && Placed(c)
    ensures Ticks(m, spr, c, k) == Ticks(m, RowLength(spr), c, k)
  {
    if k > 0 {
      TicksRowLength(m, spr, c, k - 1);
      TickRowLength(m, spr, Ticks(m, spr, c, k - 1));
    }
  }

  /** A helper for `PatternTicks`: one more row is `a` more calls. */
  lemma MulStep(a: int, b: int)
    ensures a * (b + 1) == a + a * b
  {
  }

  /** From row `r` of a pattern that lasts `rows` rows, the player takes
      `spr·(rows - r)` calls to reach the next entry, and is not done before. */
  lemma {:induction false} PatternTicks(m: Tracker.TrackerModule, spr: int, pos: int, r: int)
    requires Playable(m) && spr >= 1 && 0 <= pos < |m.sequence| && m.sequence[pos] < |m.patterns|
    requires 0 <= r < PatternLength(m.patterns[m.sequence[pos]].rows)
    ensures var n := spr * (PatternLength(m.patterns[m.sequence[pos]].rows) - r);
      n >= 0 &&
      Ticks(m, spr, Cursor(pos, r, 0, false), n) == Cursor(pos + 1, 0, 0, pos + 1 >= |m.sequence|) &&
      forall k :: 0 <= k < n ==> !Ticks(m, spr, Cursor(pos, r, 0, false), k).done
    decreases PatternLength(m.patterns[m.sequence[pos]].rows) - r
  {
    var rows := PatternLength(m.patterns[m.sequence[pos]].rows);
    var c := Cursor(pos, r, 0, false);
    var n := spr * (rows - r);
    RowTicks(m, spr, c);
    MulStep(spr, rows - r - 1);
    if r + 1 < rows {
      var c1 := Cursor(pos, r + 1, 0, false);
      assert Ticks(m, spr, c, spr) == c1;
      PatternTicks(m, spr, pos, r + 1);
      TicksAdd(m, spr, c, spr, n - spr);
      forall k | 0 <= k < n ensures !Ticks(m, spr, c, k).done {
        if k >= spr {
          TicksAdd(m, spr, c, spr, k - spr);
        }
      }
    }
  }

  /** Every entry from `pos` on names a pattern. */
  predicate PlaysFrom(m: Tracker.TrackerModule, pos: nat)
  {
    forall j :: pos <= j < |m.sequence| ==> 0 <= m.sequence[j] < |m.patterns|
  }

  /** The rows the entries from `pos` on last. */
  function RowsFrom(m: Tracker.TrackerModule, pos: nat): int
    requires PlaysFrom(m, pos)
    decreases |m.sequence| - pos
  {
    if pos >= |m.sequence| then 0 else PatternLength(m.patterns[m.sequence[pos]].rows) + RowsFrom(m, pos + 1)
  }

  /** The rows still to play are never negative, and at least one remains before the end. */
  lemma {:induction false} RowsFromPositive(m: Tracker.TrackerModule, pos: nat)
    requires PlaysFrom(m, pos)
    ensures RowsFrom(m, pos) >= 0
    ensures pos < |m.sequence| ==> RowsFrom(m, pos) >= 1
    decreases |m.sequence| - pos
  {
    if pos < |m.sequence| {
      RowsFromPositive(m, pos + 1);
    }
  }

  /** From the start of entry `pos`, the player is done after exactly
      `spr` times the rows left, and not before. */
  lemma {:induction false} SequenceTicks(m: Tracker.TrackerModule, spr: int, pos: nat)
    requires Playable(m) && spr >= 1 && pos < |m.sequence| && PlaysFrom(m, pos)
    ensures var n := spr * RowsFrom(m, pos);
      n >= 0 &&
      Ticks(m, spr, Cursor(pos, 0, 0, false), n).done &&
      forall k :: 0 <= k < n ==> !Ticks(m, spr, Cursor(pos, 0, 0, false), k).done
    decreases |m.sequence| - pos
  {
    var c := Cursor(pos, 0, 0, false);
    var rows := PatternLength(m.patterns[m.sequence[pos]].rows);
    var first := spr * rows;
    var later := spr * RowsFrom(m, pos + 1);
    PatternTicks(m, spr, pos, 0);
    assert rows - 0 == rows;
    assert Ticks(m, spr, c, first) == Cursor(pos + 1, 0, 0, pos + 1 >= |m.sequence|);
    RowsFromPositive(m, pos + 1);
    assert RowsFrom(m, pos) == rows + RowsFrom(m, pos + 1);
    MulAdd(spr, rows, RowsFrom(m, pos + 1));
    assert spr * RowsFrom(m, pos) == first + later;
    if pos + 1 < |m.sequence| {
      SequenceTicks(m, spr, pos + 1);
      RunsThen(m, spr, c, first, later);
    } else {
      assert RowsFrom(m, pos + 1) == 0;
      assert later == 0;
    }
  }

  /** A helper for `SequenceTicks`: the calls of the first entry and of the rest add up. */
  lemma MulAdd(a: int, b: int, c: int)
    ensures a * (b + c) == a * b + a * c
  {
  }

  /** A run of `a` calls not done, then `b` more from where it stops. */
  lemma RunsThen(m: Tracker.TrackerModule, spr: int, c: Cursor, a: nat, b: nat)
    requires Playable(m) && Placed(c)
    requires forall k :: 0 <= k < a ==> !Ticks(m, spr, c, k).done
    requires forall k :: 0 <= k < b ==> !Ticks(m, spr, Ticks(m, spr, c, a), k).done
    ensures forall k :: 0 <= k < a + b ==> !Ticks(m, spr, c, k).done
    ensures Ticks(m, spr, c, a + b) == Ticks(m, spr, Ticks(m, spr, c, a), b)
  {
    TicksAdd(m, spr, c, a, b);
    forall k | a <= k < a + b
      ensures !Ticks(m, spr, c, k).done
    {
      TicksAdd(m, spr, c, a, k - a);
    }
  }

  /** The rows of the whole sequence. */
  function TotalRows(m: Tracker.TrackerModule): int
    requires PlaysFrom(m, 0)
  {
    RowsFrom(m, 0)
  }

  /** On a non-empty sequence of valid patterns, a player started at the top
      is done first after exactly `max(spr, 1)·Σmax(Rows, 1)` calls. */
  lemma FinishesExactly(m: Tracker.TrackerModule, spr: int)
    requires Playable(m) && |m.sequence| > 0 && PlaysFrom(m, 0)
    ensures var n := RowLength(spr) * TotalRows(m);
      n >= 0 && Ticks(m, spr, Start, n).done && forall k :: 0 <= k < n ==> !Ticks(m, spr, Start, k).done
  {
    SequenceTicks(m, RowLength(spr), 0);
    forall k: nat ensures Ticks(m, spr, Start, k) == Ticks(m, RowLength(spr), Start, k) {
      TicksRowLength(m, spr, Start, k);
    }
  }

  // ---------------------------------------------------------------------------
  // Triggering a row

  /** The velocity of a cell: its volume, 1.0 when that is 0. */
  function Velocity(cell: Tracker.TrackerNote): (v: real)
    ensures v != 0.0
    ensures cell.volume != 0.0 ==> v == cell.volume
  {
    if cell.volume == 0.0 then 1.0 else cell.volume
  }

  /** The chord pitches `processRow` plays: the non-negative ones, in order. */
  function NonNegative(s: seq<int>): (r: seq<int>)
    ensures forall i :: 0 <= i < |r| ==> r[i] >= 0
    ensures |r| <= |s|
  {
    if s == [] then []
    else NonNegative(s[..|s| - 1]) + (if s[|s| - 1] >= 0 then [s[|s| - 1]] else [])
  }

  lemma {:induction false} NonNegativeMembers(s: seq<int>)
    ensures forall x :: x in NonNegative(s) <==> x in s && x >= 0
  {
    if s != [] {
      var init := s[..|s| - 1];
      NonNegativeMembers(init);
      assert s == init + [s[|s| - 1]];
    }
  }

  /** One cell on its channel's pool: a note plays with its chord, -2
      releases every voice, and every other negative value is a rest. */
  function TriggerCell(lib: Libm, a: AllocState, cell: Tracker.TrackerNote): (b: AllocState)
    requires a.Consistent() && |a.voices| > 0
    ensures b.Consistent() && |b.voices| == |a.voices|
  {
    if cell.note >= 0 then a.NoteOn(lib, cell.note, Velocity(cell)).PlayChord(lib, NonNegative(cell.chord), Velocity(cell))
    else if cell.note == -2 then a.AllNotesOff()
    else a
  }

  lemma PlayChordSnoc(lib: Libm, a: AllocState, xs: seq<int>, x: int, velocity: real)
    requires a.Consistent() && |a.voices| > 0
    ensures a.PlayChord(lib, xs + [x], velocity) == a.PlayChord(lib, xs, velocity).NoteOn(lib, x, velocity)
  {
    assert (xs + [x])[..|xs|] == xs;
  }

  /** Playing two chords in turn is playing their concatenation. */
  lemma {:induction false} PlayChordAppend(lib: Libm, a: AllocState, xs: seq<int>, ys: seq<int>, velocity: real)
    requires a.Consistent() && |a.voices| > 0
    ensures a.PlayChord(lib, xs + ys, velocity) == a.PlayChord(lib, xs, velocity).PlayChord(lib, ys, velocity)
    decreases |ys|
  {
    if ys == [] {
      assert xs + ys == xs;
    } else {
      var init := ys[..|ys| - 1];
      var y := ys[|ys| - 1];
      assert xs + ys == (xs + init) + [y];
      assert ys == init + [y];
      PlayChordAppend(lib, a, xs, init, velocity);
      PlayChordSnocAgree(lib, a, xs + init, a.PlayChord(lib, xs, velocity), init, y, velocity);
    }
  }

  /** Two chords that leave the same pool still do after one more note. */
  lemma PlayChordSnocAgree(lib: Libm, a: AllocState, xs: seq<int>, b: AllocState, zs: seq<int>, x: int, velocity: real)
    requires a.Consistent() && |a.voices| > 0 && b.Consistent() && |b.voices| > 0
    requires a.PlayChord(lib, xs, velocity) == b.PlayChord(lib, zs, velocity)
    ensures a.PlayChord(lib, xs + [x], velocity) == b.PlayChord(lib, zs + [x], velocity)
  {
    PlayChordSnoc(lib, a, xs, x, velocity);
    PlayChordSnoc(lib, b, zs, x, velocity);
  }

  /** A note cell plays the note and then its chord's non-negative pitches,
      all at the cell's velocity: the same as playing them as one chord. */
  lemma TriggerNote(lib: Libm, a: AllocState, cell: Tracker.TrackerNote)
    requires a.Consistent() && |a.voices| > 0 && cell.note >= 0
    ensures TriggerCell(lib, a, cell) == a.PlayChord(lib, [cell.note] + NonNegative(cell.chord), Velocity(cell))
    ensures NonNegative(cell.chord) == [] ==> cell.note in TriggerCell(lib, a, cell).noteMap
  {
    PlayChordAppend(lib, a, [cell.note], NonNegative(cell.chord), Velocity(cell));
    assert a.PlayChord(lib, [cell.note], Velocity(cell)) == a.NoteOn(lib, cell.note, Velocity(cell)) by {
      PlayChordSnoc(lib, a, [], cell.note, Velocity(cell));
      assert [] + [cell.note] == [cell.note];
    }
  }

  /** A note-off cell silences the channel's whole pool. */
  lemma TriggerNoteOff(lib: Libm, a: AllocState, cell: Tracker.TrackerNote)
    requires a.Consistent() && |a.voices| > 0 && cell.note == -2
    ensures var b := TriggerCell(lib, a, cell);
      b.noteMap == map[] && b.activeNotes == [] &&
      forall i :: 0 <= i < |a.voices| ==> b.voices[i] == a.voices[i].NoteOff()
  {
  }

  /** Any other negative cell leaves the pool as it is: notes sustain. */
  lemma TriggerRest(lib: Libm, a: AllocState, cell: Tracker.TrackerNote)
    requires a.Consistent() && |a.voices| > 0 && cell.note < 0 && cell.note != -2
    ensures TriggerCell(lib, a, cell) == a
  {
  }

  /** The channel pools after one sample: each advances. */
  function AdvanceAll(allocators: seq<AllocState>): (r: seq<AllocState>)
    ensures |r| == |allocators|
    ensures forall i :: 0 <= i < |r| ==> r[i] == allocators[i].Next()
  {
    seq(|allocators|, i requires 0 <= i < |allocators| => allocators[i].Next())
  }

  /** The sum of the pools' mixes. */
  function MixSum(lib: Libm, allocators: seq<AllocState>): real
  {
    if allocators == [] then 0.0
    else MixSum(lib, allocators[..|allocators| - 1]) + allocators[|allocators| - 1].Mix(lib)
  }

  lemma MixSumStep(lib: Libm, allocators: seq<AllocState>, k: nat)
    requires k < |allocators|
    ensures MixSum(lib, allocators[..k + 1]) == MixSum(lib, allocators[..k]) + allocators[k].Mix(lib)
  {
    assert allocators[..k + 1][..k] == allocators[..k];
  }

  // ---------------------------------------------------------------------------
  // The player's state

  /** The player: the mod, one voice pool per channel, and the cursor. */
  datatype PlayerState = PlayerState(mod: Tracker.TrackerModule, allocators: seq<AllocState>,
                                     sampleRate: SampleRate, cursor: Cursor, samplesPerRow: int, maxPolyphony: int)
  {
    /** At least one channel, every pool consistent and non-empty. */
    predicate Valid()
    {
      Placed(cursor) && |allocators| > 0 &&
      forall i :: 0 <= i < |allocators| ==> allocators[i].Consistent() && |allocators[i].voices| > 0
    }

    /** The part of `Next` that is `processRow`. Outside the sequence, or on
        an entry naming no pattern, nothing happens; otherwise every channel
        below both the pattern's channel count and the pool count whose
        channel has the current row triggers that cell. */
    function ProcessRow(lib: Libm): (q: PlayerState)
      requires Valid() && Playable(mod)
      ensures q.Valid() && q == this.(allocators := q.allocators) && |q.allocators| == |allocators|
      ensures !OnPattern(mod, cursor) ==> q == this
      ensures forall ch :: 0 <= ch < |allocators| ==>
        q.allocators[ch] == allocators[ch] ||
        (OnPattern(mod, cursor) &&
         var pat := mod.patterns[mod.sequence[cursor.pos]];
         ch < |pat.channels| && cursor.row < |pat.channels[ch]| &&
         q.allocators[ch] == TriggerCell(lib, allocators[ch], pat.channels[ch][cursor.row]))
    {
      if cursor.pos >= |mod.sequence| then this
      else
        var idx := mod.sequence[cursor.pos];
        if idx >= |mod.patterns| then this
        else
          var pat := mod.patterns[idx];
          this.(allocators := seq(|allocators|, ch requires 0 <= ch < |allocators| =>
            if ch < |pat.channels| && cursor.row < |pat.channels[ch]|
            then TriggerCell(lib, allocators[ch], pat.channels[ch][cursor.row])
            else allocators[ch]))
    }

    /** `processRow` runs at the first sample of every row. */
    function Triggered(lib: Libm): (q: PlayerState)
      requires Valid() && Playable(mod)
      ensures q.Valid() && q == this.(allocators := q.allocators) && |q.allocators| == |allocators|
    {
      if cursor.counter == 0 then ProcessRow(lib) else this
    }

    /** The sample `Next` returns: 0 once done, else the average of the
        channels' mixes. */
    function Sample(lib: Libm): real
      requires Valid() && Playable(mod)
    {
      if cursor.done then 0.0
      else
        var p := Triggered(lib);
        Average(MixSum(lib, p.allocators), |p.allocators|)
    }

    /** The state after `Next`. */
    function Next(lib: Libm): (q: PlayerState)
      requires Valid() && Playable(mod)
      ensures q.Valid() && q.mod == mod && q.samplesPerRow == samplesPerRow
      ensures q.sampleRate == sampleRate && q.maxPolyphony == maxPolyphony && |q.allocators| == |allocators|
      ensures q.cursor == Tick(mod, samplesPerRow, cursor)
      ensures cursor.done ==> q == this
    {
      if cursor.done then this
      else
        var p := Triggered(lib);
        p.(allocators := AdvanceAll(p.allocators), cursor := Tick(mod, samplesPerRow, cursor))
    }

    /** `Reset`: back to the top, the pools untouched. */
    function Reset(): PlayerState
    {
      this.(cursor := Start)
    }
  }

  /** `NewPlayer`: eight silent pools of four voices, channel `i` on the
      module's `i`-th instrument or the default square, at the top. */
  function NewPlayer(m: Tracker.TrackerModule, rate: SampleRate): (p: PlayerState)
    requires m.tempo != 0
    ensures p.Valid() && p.mod == m && p.cursor == Start && p.maxPolyphony == MaxPolyphony
    ensures p.samplesPerRow == SamplesPerRow(m.tempo, rate)
    ensures |p.allocators| == NumChannels
    ensures forall i :: 0 <= i < NumChannels ==>
      var a := p.allocators[i];
      |a.voices| == MaxPolyphony && a.instrument == ChannelInstrument(m, i) && a.sampleRate == rate &&
      a.noteMap == map[] && a.activeNotes == [] && !a.AnyActive()
  {
    PlayerState(m, seq(NumChannels, i requires 0 <= i < NumChannels => NewVoiceAllocator(ChannelInstrument(m, i), rate, MaxPolyphony)),
                rate, Start, SamplesPerRow(m.tempo, rate), MaxPolyphony)
  }

  /** The state after `k` calls of `Next`; its cursor is the cursor model's. */
  function Played(lib: Libm, p: PlayerState, k: nat): (q: PlayerState)
    requires p.Valid() && Playable(p.mod)
    ensures q.Valid() && q.mod == p.mod && q.samplesPerRow == p.samplesPerRow
    ensures |q.allocators| == |p.allocators|
    ensures q.cursor == Ticks(p.mod, p.samplesPerRow, p.cursor, k)
  {
    if k == 0 then p else Played(lib, p, k - 1).Next(lib)
  }

  /** Once done, `Next` answers 0 and changes nothing. */
  lemma DoneIsSilent(lib: Libm, p: PlayerState)
    requires p.Valid() && Playable(p.mod) && p.cursor.done
    ensures p.Sample(lib) == 0.0 && p.Next(lib) == p
  {
  }

  /** Between rows no note is triggered: the pools only advance. */
  lemma MidRowOnlyAdvances(lib: Libm, p: PlayerState)
    requires p.Valid() && Playable(p.mod) && !p.cursor.done && p.cursor.counter != 0
    ensures p.Next(lib).allocators == AdvanceAll(p.allocators)
  {
  }

  lemma {:induction false} MixSumBounded(lib: Libm, allocators: seq<AllocState>, b: real)
    requires b >= 0.0
    requires forall i :: 0 <= i < |allocators| ==> -b <= allocators[i].Mix(lib) <= b
    ensures -Scaled(|allocators|, b) <= MixSum(lib, allocators) <= Scaled(|allocators|, b)
  {
    if allocators != [] {
      var init := allocators[..|allocators| - 1];
      assert forall i :: 0 <= i < |init| ==> init[i] == allocators[i];
      MixSumBounded(lib, init, b);
      ScaledStep(|init|, b);
    }
  }

  /** When no sounding voice leaves `[-b, b]`, neither does the player's
      sample: averaging the pools, like averaging each pool's voices, never
      clips. */
  lemma SampleBounded(lib: Libm, p: PlayerState, b: real)
    requires p.Valid() && Playable(p.mod) && b >= 0.0
    requires var q := p.Triggered(lib);
      forall ch, i :: 0 <= ch < |q.allocators| && 0 <= i < |q.allocators[ch].voices| && q.allocators[ch].voices[i].IsActive() ==>
        -b <= q.allocators[ch].voices[i].Output(lib) <= b
    ensures -b <= p.Sample(lib) <= b
  {
    if !p.cursor.done {
      var q := p.Triggered(lib);
      forall ch | 0 <= ch < |q.allocators| ensures -b <= q.allocators[ch].Mix(lib) <= b {
        MixBounded(lib, q.allocators[ch], b);
      }
      MixSumBounded(lib, q.allocators, b);
      AverageBounded(MixSum(lib, q.allocators), |q.allocators|, b);
    }
  }

  /** A new player on a non-empty sequence of valid patterns is done first
      after `max(samplesPerRow, 1)·Σmax(Rows, 1)` calls of `Next`. */
  lemma PlayerFinishesExactly(lib: Libm, m: Tracker.TrackerModule, rate: SampleRate)
    requires m.tempo != 0
    requires Playable(m) && |m.sequence| > 0 && PlaysFrom(m, 0)
    ensures var p := NewPlayer(m, rate);
      var n := RowLength(p.samplesPerRow) * TotalRows(m);
      n >= 0 && Played(lib, p, n).cursor.done && forall k :: 0 <= k < n ==> !Played(lib, p, k).cursor.done
  {
    FinishesExactly(m, SamplesPerRow(m.tempo, rate));
  }

  /** After `Reset` the same count holds again, whatever was played before. */
  lemma ReplayAfterReset(lib: Libm, p: PlayerState)
    requires p.Valid() && Playable(p.mod)
    requires |p.mod.sequence| > 0 && PlaysFrom(p.mod, 0)
    ensures var q := p.Reset();
      var n := RowLength(p.samplesPerRow) * TotalRows(p.mod);
      q.Valid() && q.allocators == p.allocators &&
      n >= 0 && Played(lib, q, n).cursor.done && forall k :: 0 <= k < n ==> !Played(lib, q, k).cursor.done
  {
    FinishesExactly(p.mod, p.samplesPerRow);
  }

  /** One pattern of four rows at 120 beats a minute and 44100 Hz: the
      player is done after 4·5512 samples. */
  lemma FourRowsAt120(lib: Libm, m: Tracker.TrackerModule)
    requires m.tempo == 120 && m.sequence == [0] && |m.patterns| > 0 && m.patterns[0].rows == 4
    ensures var p := NewPlayer(m, 44100.0);
      Played(lib, p, 4 * 5512).cursor.done && forall k :: 0 <= k < 4 * 5512 ==> !Played(lib, p, k).cursor.done
  {
    SamplesPerRowAt120();
    assert TotalRows(m) == 4 by {
      assert RowsFrom(m, 1) == 0;
    }
    PlayerFinishesExactly(lib, m, 44100.0);
  }

  /** What `processRow` does to channel `ch`'s pool on a given pattern and row. */
  function RowCell(lib: Libm, a: AllocState, pat: Tracker.Pattern, row: int, ch: nat): (b: AllocState)
    requires a.Consistent() && |a.voices| > 0 && row >= 0
  {
    if ch < |pat.channels| && row < |pat.channels[ch]| then TriggerCell(lib, a, pat.channels[ch][row]) else a
  }

  /** `processRow` on a pattern changes every pool as `RowCell` says. */
  lemma ProcessRowCells(lib: Libm, p: PlayerState)
    requires p.Valid() && Playable(p.mod) && OnPattern(p.mod, p.cursor)
    ensures var pat := p.mod.patterns[p.mod.sequence[p.cursor.pos]];
      var q := p.ProcessRow(lib);
      forall ch :: 0 <= ch < |p.allocators| ==> q.allocators[ch] == RowCell(lib, p.allocators[ch], pat, p.cursor.row, ch)
  {
  }

  /** One more chord entry: a non-negative one is one more `NoteOn`, any other is skipped. */
  lemma ChordPrefixStep(lib: Libm, a: AllocState, chord: seq<int>, k: nat, velocity: real)
    requires a.Consistent() && |a.voices| > 0 && k < |chord|
    ensures a.PlayChord(lib, NonNegative(chord[..k + 1]), velocity)
         == if chord[k] >= 0 then a.PlayChord(lib, NonNegative(chord[..k]), velocity).NoteOn(lib, chord[k], velocity)
            else a.PlayChord(lib, NonNegative(chord[..k]), velocity)
  {
    var xs := NonNegative(chord[..k]);
    assert NonNegative(chord[..k + 1]) == xs + (if chord[k] >= 0 then [chord[k]] else []) by {
      assert chord[..k + 1][..k] == chord[..k];
    }
    if chord[k] >= 0 {
      PlayChordSnoc(lib, a, xs, chord[k], velocity);
    } else {
      assert xs + [] == xs;
    }
  }

  method PlayCell(lib: Libm, a: AllocState, cell: Tracker.TrackerNote) returns (b: AllocState)
    requires a.Consistent() && |a.voices| > 0
    ensures b == TriggerCell(lib, a, cell)
  {
    b := a;
    if cell.note >= 0 {
      var velocity := cell.volume;
      if velocity == 0.0 {
        velocity := 1.0;
      }
      b := b.NoteOn(lib, cell.note, velocity);
      ghost var first := b;
      for k := 0 to |cell.chord|
        invariant b.Consistent() && |b.voices| > 0
        invariant b == first.PlayChord(lib, NonNegative(cell.chord[..k]), velocity)
      {
        ChordPrefixStep(lib, first, cell.chord, k, velocity);
        if cell.chord[k] >= 0 {
          b := b.NoteOn(lib, cell.chord[k], velocity);
        }
      }
      assert cell.chord[..|cell.chord|] == cell.chord;
    } else if cell.note == -2 {
      b := b.AllNotesOff();
    }
  }

  /** What `Stream` leaves behind for a buffer of `len` frames: the frames it
      fills, whether it filled them all, the player afterwards, and the player
      before each frame and at the end. */
  datatype StreamResult = StreamResult(frames: seq<(real, real)>, ok: bool, player: PlayerState, states: seq<PlayerState>)

  /** Frame `j` of a stream: the player before it was running, its sample
      fills both sides, and its `Next` is the player before frame `j + 1`. */
  predicate FrameStep(lib: Libm, r: StreamResult, j: int)
  {
    && 0 <= j < |r.frames| && j + 1 < |r.states|
    && r.states[j].Valid() && Playable(r.states[j].mod) && !r.states[j].cursor.done
    && r.states[j + 1] == r.states[j].Next(lib)
    && r.frames[j] == (r.states[j].Sample(lib), r.states[j].Sample(lib))
  }

  /** `r` is what a stream of `len` frames from `p` leaves behind: it fills at
      most `len` frames, all of them when `ok`, and it stops only on a player
      that is done; each frame it fills is one `FrameStep`. */
  predicate Streams(lib: Libm, p: PlayerState, len: nat, r: StreamResult)
  {
    && |r.frames| <= len && (r.ok <==> |r.frames| == len)
    && |r.states| == |r.frames| + 1 && r.states[0] == p && r.player == r.states[|r.frames|]
    && r.player.Valid() && Playable(r.player.mod) && r.player.mod == p.mod
    && (!r.ok ==> r.player.cursor.done)
    && forall j :: 0 <= j < |r.frames| ==> FrameStep(lib, r, j)
  }

  function StreamRun(lib: Libm, p: PlayerState, len: nat): (r: StreamResult)
    requires p.Valid() && Playable(p.mod)
    ensures Streams(lib, p, len, r)
    decreases len
  {
    if len == 0 then StreamResult([], true, p, [p])
    else if p.cursor.done then StreamResult([], false, p, [p])
    else
      var rest := StreamRun(lib, p.Next(lib), len - 1);
      StreamCons(lib, p, len, rest);
      StreamResult([(p.Sample(lib), p.Sample(lib))] + rest.frames, rest.ok, rest.player, [p] + rest.states)
  }

  /** One running frame in front of a stream one frame shorter. */
  lemma StreamCons(lib: Libm, p: PlayerState, len: nat, rest: StreamResult)
    requires p.Valid() && Playable(p.mod) && !p.cursor.done && len > 0
    requires Streams(lib, p.Next(lib), len - 1, rest)
    ensures Streams(lib, p, len, StreamResult([(p.Sample(lib), p.Sample(lib))] + rest.frames, rest.ok, rest.player, [p] + rest.states))
  {
    var r := StreamResult([(p.Sample(lib), p.Sample(lib))] + rest.frames, rest.ok, rest.player, [p] + rest.states);
    assert FrameStep(lib, r, 0);
    forall j | 1 <= j < |r.frames|
      ensures FrameStep(lib, r, j)
    {
      assert FrameStep(lib, rest, j - 1);
      assert r.states[j] == rest.states[j - 1] && r.states[j + 1] == rest.states[j];
      assert r.frames[j] == rest.frames[j - 1];
    }
  }

  /** The player before frame `j` is the player after `j` calls of `Next`. */
  lemma {:induction false} StatesPlayed(lib: Libm, p: PlayerState, r: StreamResult, j: nat)
    requires p.Valid() && Playable(p.mod) && |r.states| == |r.frames| + 1 && r.states[0] == p
    requires forall i :: 0 <= i < |r.frames| ==> FrameStep(lib, r, i)
    requires j <= |r.frames|
    ensures r.states[j] == Played(lib, p, j)
  {
    if j > 0 {
      StatesPlayed(lib, p, r, j - 1);
      assert FrameStep(lib, r, j - 1);
    }
  }

  /** `Stream` plays the song and stops exactly when it is over: frame `j`
      holds the sample of the `j`-th call of `Next` on both sides, the player
      was not done before any frame it filled, it is done when the buffer is
      not full, and it ends as many calls later as frames were filled. */
  lemma StreamMeans(lib: Libm, p: PlayerState, len: nat)
    requires p.Valid() && Playable(p.mod)
    ensures var r := StreamRun(lib, p, len);
      && r.player == Played(lib, p, |r.frames|)
      && (forall j :: 0 <= j < |r.frames| ==>
            r.frames[j] == (Played(lib, p, j).Sample(lib), Played(lib, p, j).Sample(lib)) &&
            !Ticks(p.mod, p.samplesPerRow, p.cursor, j).done)
      && (!r.ok ==> Ticks(p.mod, p.samplesPerRow, p.cursor, |r.frames|).done)
  {
    var r := StreamRun(lib, p, len);
    forall j | 0 <= j < |r.frames|
      ensures r.frames[j] == (Played(lib, p, j).Sample(lib), Played(lib, p, j).Sample(lib))
      ensures !Ticks(p.mod, p.samplesPerRow, p.cursor, j).done
    {
      StatesPlayed(lib, p, r, j);
      assert FrameStep(lib, r, j);
    }
    StatesPlayed(lib, p, r, |r.frames|);
  }

  // ---------------------------------------------------------------------------
  // The player object

  class Player {
    var mod: Tracker.TrackerModule
    var voiceAllocators: seq<AllocState>
    var sampleRate: SampleRate
    var currentPos: int
    var currentRow: int
    var sampleCounter: int
    var samplesPerRow: int
    var done: bool
    var maxPolyphony: int

    function Model(): PlayerState
      reads this
    {
      PlayerState(mod, voiceAllocators, sampleRate, Cursor(currentPos, currentRow, sampleCounter, done),
                  samplesPerRow, maxPolyphony)
    }

    predicate Valid()
      reads this
    {
      Model().Valid()
    }

    /** `NewPlayer`. */
    constructor (m: Tracker.TrackerModule, rate: SampleRate)
      requires m.tempo != 0
      ensures Valid() && Model() == NewPlayer(m, rate)
    {
      var secondsPerBeat := 60.0 / m.tempo as real;
      var secondsPerRow := secondsPerBeat / 4.0;
      var spr := Trunc(secondsPerRow * rate);
      var allocators := NewAllocators(m, rate);
      ghost var p := NewPlayer(m, rate);
      assert allocators == p.allocators;
      assert spr == p.samplesPerRow;
      mod, voiceAllocators, sampleRate := m, allocators, rate;
      currentPos, currentRow, sampleCounter := 0, 0, 0;
      samplesPerRow, done, maxPolyphony := spr, false, MaxPolyphony;
    }

    /** The loop of `NewPlayer` that gives channel `i` its pool: the module's
        `i`-th instrument, or the default square past the module's list. */
    static method NewAllocators(m: Tracker.TrackerModule, rate: SampleRate) returns (allocators: seq<AllocState>)
      ensures |allocators| == NumChannels
      ensures forall j :: 0 <= j < NumChannels ==>
        allocators[j] == NewVoiceAllocator(ChannelInstrument(m, j), rate, MaxPolyphony)
    {
      allocators := [];
      for i := 0 to NumChannels
        invariant |allocators| == i
        invariant forall j :: 0 <= j < i ==> allocators[j] == NewVoiceAllocator(ChannelInstrument(m, j), rate, MaxPolyphony)
      {
        var inst := if i < |m.instruments| then m.instruments[i] else DefaultInstrument;
        assert inst == ChannelInstrument(m, i);
        allocators := allocators + [NewVoiceAllocator(inst, rate, MaxPolyphony)];
      }
    }

    /** `Next`: one mono sample. */
    method Next(lib: Libm) returns (sample: real)
      requires Valid() && Playable(mod)
      modifies this
      ensures sample == old(Model()).Sample(lib) && Model() == old(Model()).Next(lib)
    {
      if done {
        return 0.0;
      }
      if sampleCounter == 0 {
        ProcessRow(lib);
      }
      assert Model() == old(Model()).Triggered(lib);
      sample := MixChannels(lib);
      AdvanceCursor();
    }

    /** The mixing half of `Next`: every pool gives its sample and advances,
        and the player's sample is their average. */
    method MixChannels(lib: Libm) returns (sample: real)
      requires Valid()
      modifies this
      ensures Model() == old(Model()).(allocators := AdvanceAll(old(voiceAllocators)))
      ensures sample == Average(MixSum(lib, old(voiceAllocators)), |old(voiceAllocators)|)
    {
      var allocators := voiceAllocators;
      ghost var vs := voiceAllocators;
      sample := 0.0;
      for k := 0 to |allocators|
        invariant Model() == old(Model())
        invariant |allocators| == |vs| && sample == MixSum(lib, vs[..k])
        invariant forall j :: 0 <= j < |allocators| ==> allocators[j] == if j < k then vs[j].Next() else vs[j]
      {
        MixSumStep(lib, vs, k);
        sample := sample + allocators[k].Mix(lib);
        allocators := allocators[k := allocators[k].Next()];
      }
      assert vs[..|allocators|] == vs;
      assert allocators == AdvanceAll(vs);
      voiceAllocators := allocators;
      sample := sample / |voiceAllocators| as real;
    }

    /** The counting half of `Next`, on a player that is not done. */
    method AdvanceCursor()
      requires Placed(Model().cursor) && Playable(mod) && !done
      modifies this
      ensures Model() == old(Model()).(cursor := Tick(old(mod), old(samplesPerRow), old(Model().cursor)))
    {
      ghost var c0 := Model().cursor;
      ghost var c := Tick(mod, samplesPerRow, c0);
      sampleCounter := sampleCounter + 1;
      if sampleCounter >= samplesPerRow {
        sampleCounter := 0;
        currentRow := currentRow + 1;
        if currentPos < |mod.sequence| {
          var patternIdx := mod.sequence[currentPos];
          if patternIdx < |mod.patterns| {
            if currentRow >= mod.patterns[patternIdx].rows {
              currentRow := 0;
              currentPos := currentPos + 1;
              if currentPos >= |mod.sequence| {
                done := true;
              }
              assert c == Cursor(c0.pos + 1, 0, 0, c0.pos + 1 >= |mod.sequence|);
            } else {
              assert c == c0.(counter := 0, row := c0.row + 1);
            }
          } else {
            assert c == c0.(counter := 0, row := c0.row + 1);
          }
        } else {
          assert c == c0.(counter := 0, row := c0.row + 1);
        }
      } else {
        assert c == c0.(counter := c0.counter + 1);
      }
    }

    /** `processRow`: the current row's cells on their channels' pools. */
    method ProcessRow(lib: Libm)
      requires Valid() && Playable(mod)
      modifies this
      ensures Model() == old(Model()).ProcessRow(lib)
      ensures Valid() && mod == old(mod) && samplesPerRow == old(samplesPerRow)
      ensures currentPos == old(currentPos) && currentRow == old(currentRow) && sampleCounter == old(sampleCounter) && done == old(done)
    {
      if currentPos >= |mod.sequence| {
        return;
      }
      var patternIdx := mod.sequence[currentPos];
      if patternIdx >= |mod.patterns| {
        return;
      }
      var pattern := mod.patterns[patternIdx];
      ghost var p := Model();
      var allocators := voiceAllocators;
      var ch := 0;
      while ch < |pattern.channels| && ch < |allocators|
        invariant Model() == p
        invariant 0 <= ch <= |allocators| == |p.allocators|
        invariant forall j :: 0 <= j < |allocators| ==>
          allocators[j] == if j < ch then RowCell(lib, p.allocators[j], pattern, currentRow, j) else p.allocators[j]
      {
        if currentRow < |pattern.channels[ch]| {
          var b := PlayCell(lib, allocators[ch], pattern.channels[ch][currentRow]);
          allocators := allocators[ch := b];
        }
        ch := ch + 1;
      }
      ProcessRowCells(lib, p);
      voiceAllocators := allocators;
    }

    /** `GetChannelVoices`: the pool of a channel, or nothing out of range. */
    method GetChannelVoices(channel: int) returns (v: Tracker.Option<AllocState>)
      ensures v.Some? <==> 0 <= channel < |voiceAllocators|
      ensures v.Some? ==> v.value == voiceAllocators[channel]
    {
      if 0 <= channel < |voiceAllocators| {
        return Tracker.Some(voiceAllocators[channel]);
      }
      return Tracker.None;
    }

    method GetChannelCount() returns (n: int)
      ensures n == |voiceAllocators|
    {
      return |voiceAllocators|;
    }

    method GetMaxPolyphony() returns (n: int)
      ensures n == maxPolyphony
    {
      return maxPolyphony;
    }

    method IsDone() returns (b: bool)
      ensures b == done
    {
      return done;
    }

    /** `Reset`: position, row and counter to 0, `done` cleared; the pools keep their state. */
    method Reset()
      modifies this
      ensures Model() == old(Model()).Reset()
    {
      currentPos := 0;
      currentRow := 0;
      sampleCounter := 0;
      done := false;
    }

    /** `Stream`: fills frames with `Next`'s samples, the same on both sides,
        and stops at the first frame where the player is done. */
    method Stream(lib: Libm, samples: array<(real, real)>) returns (n: int, ok: bool)
      requires Valid() && Playable(mod)
      modifies this, samples
      ensures var r := StreamRun(lib, old(Model()), samples.Length);
        && n == |r.frames| && samples[..n] == r.frames && ok == r.ok && Model() == r.player
      ensures samples[n..] == old(samples[n..])
    {
      ghost var r := StreamRun(lib, Model(), samples.Length);
      n, ok := FillFrames(lib, samples, r);
    }

    /** The loop of `Stream`, following a stream result `r` that starts at
        the current player: frame by frame, one `Next` each. */
    method FillFrames(lib: Libm, samples: array<(real, real)>, ghost r: StreamResult) returns (n: int, ok: bool)
      requires Valid() && Playable(mod) && Streams(lib, Model(), samples.Length, r)
      modifies this, samples
      ensures n == |r.frames| && samples[..n] == r.frames && ok == r.ok && Model() == r.states[n]
      ensures samples[n..] == old(samples[n..])
    {
      var i := 0;
      while i < samples.Length
        invariant 0 <= i <= |r.frames| && Valid() && Playable(mod)
        invariant Model() == r.states[i] && samples[..i] == r.frames[..i]
        invariant samples[i..] == old(samples[i..])
      {
        if i < |r.frames| {
          assert FrameStep(lib, r, i);
        }
        if done {
          return i, false;
        }
        ghost var prefix := samples[..i];
        var sample := Next(lib);
        samples[i] := (sample, sample);
        assert samples[..i + 1] == prefix + [(sample, sample)];
        assert r.frames[..i + 1] == r.frames[..i] + [r.frames[i]];
        assert samples[i + 1..] == old(samples[i..])[1..];
        i := i + 1;
      }
      return samples.Length, true;
    }
  }
}
