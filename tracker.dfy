/** The tracker module format (tracker/tracker.go): the module's data, the
    loader `LoadVTM` and the writer `SaveVTM`. The loader takes the text of a
    file, scans it into lines (`ScanLines`), and hands each line over as its
    whitespace-separated fields, the way `strings.Fields` splits it. */
module Tracker {
  import opened SynthNote
  import opened SynthOscillator

  datatype Option<T> = None | Some(value: T)

  /** A cell of a pattern. `note` is a semitone, -1 a rest, -2 a note-off.
      The player reads a chord from each cell; the loader never fills it. */
  datatype TrackerNote = TrackerNote(note: int, instrument: int, volume: real, effect: string, chord: seq<int>)

  /** `channels[c][r]` is the cell of channel `c` at row `r`. */
  datatype Pattern = Pattern(rows: int, channels: seq<seq<TrackerNote>>)

  datatype Instrument = Instrument(
    name: string,
    waveType: int, attack: real, decay: real, sustain: real, release: real,
    isFM: bool, fmPreset: string, fmAlgorithm: int, fmParams: map<string, string>)

  datatype TrackerModule = TrackerModule(
    title: string, tempo: int, ticksPerRow: int,
    patterns: seq<Pattern>, sequence: seq<int>, instruments: seq<Instrument>)

  /** The cell the loader starts every pattern with, and reads for a rest. */
  const Rest: TrackerNote := TrackerNote(-1, 0, 1.0, "", [])

  // ---------------------------------------------------------------------------
  // Text helpers of the Go library, on ASCII

  /** `unicode.ToUpper` on the ASCII letters. */
  function UpperChar(c: char): char
  {
    if 'a' <= c <= 'z' then (c as int - 32) as char else c
  }

  /** `strings.ToUpper`. */
  function ToUpper(s: string): (u: string)
    ensures |u| == |s|
    ensures forall i :: 0 <= i < |s| ==> u[i] == UpperChar(s[i])
  {
    if s == [] then [] else [UpperChar(s[0])] + ToUpper(s[1..])
  }

  lemma {:induction false} ToUpperIdempotent(s: string)
    ensures ToUpper(ToUpper(s)) == ToUpper(s)
  {
    var u := ToUpper(s);
    assert forall i :: 0 <= i < |u| ==> ToUpper(u)[i] == u[i];
  }

  /** `strings.Join(parts, " ")`. */
  function Unwords(parts: seq<string>): string
  {
    if parts == [] then "" else if |parts| == 1 then parts[0] else parts[0] + " " + Unwords(parts[1..])
  }

  predicate IsDigit(c: char)
  {
    '0' <= c <= '9'
  }

  predicate AllDigits(s: string)
  {
    forall i :: 0 <= i < |s| ==> IsDigit(s[i])
  }

  /** The value of a string of decimal digits, read left to right. */
  function DigitsValue(s: string): (v: nat)
    requires AllDigits(s)
  {
    if s == [] then 0 else DigitsValue(s[..|s| - 1]) * 10 + (s[|s| - 1] as int - '0' as int)
  }

  /** `strconv.Atoi` with its error ignored: an optional sign followed by at
      least one digit is read as a number; anything else is 0. */
  function Atoi(s: string): int
  {
    if |s| >= 2 && (s[0] == '+' || s[0] == '-') && AllDigits(s[1..]) then
      if s[0] == '-' then -(DigitsValue(s[1..]) as int) else DigitsValue(s[1..])
    else if |s| >= 1 && AllDigits(s) then DigitsValue(s)
    else 0
  }

  /** The decimal digits of a natural number, without leading zeros. */
  function Digits(n: nat): (s: string)
    ensures |s| >= 1 && AllDigits(s)
  {
    if n < 10 then [('0' as int + n) as char] else Digits(n / 10) + [('0' as int + n % 10) as char]
  }

  /** `%d`. */
  function FormatInt(n: int): string
  {
    if n < 0 then "-" + Digits(-n) else Digits(n)
  }

  lemma {:induction false} DigitsRoundTrip(n: nat)
    ensures DigitsValue(Digits(n)) == n
  {
    var s := Digits(n);
    if n >= 10 {
      DigitsRoundTrip(n / 10);
      assert s[..|s| - 1] == Digits(n / 10);
    }
  }

  /** `strconv.Atoi` reads back what `%d` prints. */
  lemma AtoiFormatInt(n: int)
    ensures Atoi(FormatInt(n)) == n
  {
    if n < 0 {
      var d := Digits(-n);
      DigitsRoundTrip(-n);
      var s := "-" + d;
      assert s[0] == '-' && s[1..] == d;
      assert Atoi(s) == -(DigitsValue(d) as int);
    } else {
      var d := Digits(n);
      DigitsRoundTrip(n);
      assert !(d[0] == '+' || d[0] == '-');
      assert Atoi(d) == DigitsValue(d);
    }
  }

  /** `strings.TrimSuffix(s, ":")`. */
  function TrimColon(s: string): string
  {
    if |s| > 0 && s[|s| - 1] == ':' then s[..|s| - 1] else s
  }

  // ---------------------------------------------------------------------------
  // Wave types and notes

  /** `parseWaveType`: case-insensitive; an unknown name is a square wave. */
  function ParseWaveType(s: string): int
  {
    var u := ToUpper(s);
    if u == "SQUARE" then Square
    else if u == "SAW" then Saw
    else if u == "TRIANGLE" then Triangle
    else if u == "SINE" then Sine
    else if u == "NOISE" then Noise
    else Square
  }

  /** `waveTypeToString`: an unknown wave type prints as a square wave. */
  function WaveTypeToString(w: int): string
  {
    if w == Square then "SQUARE"
    else if w == Saw then "SAW"
    else if w == Triangle then "TRIANGLE"
    else if w == Sine then "SINE"
    else if w == Noise then "NOISE"
    else "SQUARE"
  }

  /** The two agree: each of the five waveforms is printed and read back as
      itself; any other value comes back as a square wave. */
  lemma WaveTypeRoundTrip(w: int)
    ensures ParseWaveType(WaveTypeToString(w)) == (if Square <= w <= Noise then w else Square)
  {
    var s := WaveTypeToString(w);
    assert ToUpper(s) == s by {
      assert forall i :: 0 <= i < |s| ==> 'A' <= s[i] <= 'Z';
    }
  }

  /** Reading ignores case, and yields one of the five waveforms. */
  lemma ParseWaveTypeIgnoresCase(s: string)
    ensures ParseWaveType(ToUpper(s)) == ParseWaveType(s)
    ensures Square <= ParseWaveType(s) <= Noise
  {
    ToUpperIdempotent(s);
  }

  /** `parseTrackerNote`: the rest and note-off spellings, otherwise `ParseNote`;
      the instrument is always 0 and the volume 1. */
  function ParseTrackerNote(s: string): (n: TrackerNote)
    ensures n.instrument == 0 && n.volume == 1.0 && n.effect == "" && n.chord == []
    ensures n.note == -2 || n.note == -1 || 0 <= n.note <= 108
  {
    if s == "---" || s == ".." || s == "..." then Rest
    else if s == "===" || s == "OFF" || s == "off" then TrackerNote(-2, 0, 1.0, "", [])
    else TrackerNote(ParseNote(s), 0, 1.0, "", [])
  }

  /** Every spelling of a rest and of a note-off is recognised as such, and
      every other text is read as a note name. */
  lemma ParseTrackerNoteCases(s: string)
    ensures s in {"---", "..", "..."} ==> ParseTrackerNote(s).note == -1
    ensures s in {"===", "OFF", "off"} ==> ParseTrackerNote(s).note == -2
    ensures s !in {"---", "..", "...", "===", "OFF", "off"} ==> ParseTrackerNote(s).note == ParseNote(s)
  {
  }


  // ---------------------------------------------------------------------------
  // strings.Fields

  /** `unicode.IsSpace`: the ASCII white space, NEL, NBSP and the Unicode
      space separators. */
  predicate IsSpace(c: char)
  {
    var k := c as int;
    (9 <= k <= 13) || k == 32 || k == 0x85 || k == 0xA0 || k == 0x1680
    || (0x2000 <= k <= 0x200A) || k == 0x2028 || k == 0x2029 || k == 0x202F
    || k == 0x205F || k == 0x3000
  }

  /** A field: a non-empty run of characters none of which is white space. */
  predicate Word(w: string)
  {
    |w| > 0 && forall j :: 0 <= j < |w| ==> !IsSpace(w[j])
  }

  /** The length of the run of non-space characters that starts `s`. */
  function WordLen(s: string): (n: nat)
    ensures n <= |s|
  {
    if s == [] || IsSpace(s[0]) then 0 else 1 + WordLen(s[1..])
  }

  /** `strings.Fields`: the maximal runs of non-space characters, in order. */
  function Fields(s: string): seq<string>
    decreases |s|
  {
    if s == [] then []
    else if IsSpace(s[0]) then Fields(s[1..])
    else
      var n := 1 + WordLen(s[1..]);
      [s[..n]] + Fields(s[n..])
  }

  lemma {:induction false} WordLenIsRun(s: string)
    ensures forall j :: 0 <= j < WordLen(s) ==> !IsSpace(s[j])
    ensures WordLen(s) < |s| ==> IsSpace(s[WordLen(s)])
  {
    if s != [] && !IsSpace(s[0]) {
      WordLenIsRun(s[1..]);
    }
  }

  /** Every field is non-empty and holds no white space. */
  lemma {:induction false} FieldsAreWords(s: string)
    ensures forall i :: 0 <= i < |Fields(s)| ==> Word(Fields(s)[i])
    decreases |s|
  {
    if s != [] {
      if IsSpace(s[0]) {
        FieldsAreWords(s[1..]);
      } else {
        var n := 1 + WordLen(s[1..]);
        WordLenIsRun(s[1..]);
        FieldsAreWords(s[n..]);
        assert forall j :: 1 <= j < n ==> s[j] == s[1..][j - 1];
      }
    }
  }

  lemma {:induction false} WordLenOfWord(w: string, x: string)
    requires Word(w) && (x == [] || IsSpace(x[0]))
    ensures WordLen(w + x) == |w|
  {
    assert (w + x)[1..] == w[1..] + x;
    if |w| > 1 {
      WordLenOfWord(w[1..], x);
    } else {
      assert w[1..] + x == x;
    }
  }

  /** A field followed by a space is split off as the first field. */
  lemma FieldsHead(w: string, x: string)
    requires Word(w)
    ensures Fields(w + " " + x) == [w] + Fields(x)
  {
    var s := w + " " + x;
    assert s == w + (" " + x);
    WordLenOfWord(w, " " + x);
    assert s[..|w|] == w && s[|w|..] == " " + x;
    assert (" " + x)[1..] == x;
  }

  lemma FieldsOfWord(w: string)
    requires Word(w)
    ensures Fields(w) == [w]
  {
    assert w + [] == w;
    WordLenOfWord(w, []);
    assert w[..|w|] == w;
  }

  /** `strings.Fields` takes apart what `strings.Join(_, " ")` puts together,
      as long as every part is a field. */
  lemma {:induction false} FieldsUnwords(ts: seq<string>)
    requires forall i :: 0 <= i < |ts| ==> Word(ts[i])
    ensures Fields(Unwords(ts)) == ts
  {
    if |ts| == 1 {
      FieldsOfWord(ts[0]);
    } else if |ts| > 1 {
      FieldsUnwords(ts[1..]);
      FieldsHead(ts[0], Unwords(ts[1..]));
      assert ts == [ts[0]] + ts[1..];
    }
  }

  lemma FormatIntWord(n: int)
    ensures Word(FormatInt(n))
  {
    var d := Digits(if n < 0 then -n else n);
    assert forall j :: 0 <= j < |d| ==> !IsSpace(d[j]);
    if n < 0 {
      assert FormatInt(n) == "-" + d;
      assert forall j :: 1 <= j < |FormatInt(n)| ==> FormatInt(n)[j] == d[j - 1];
    }
  }

  /** `strings.TrimSpace`, in two halves. */
  function TrimLeft(s: string): string
  {
    if s != [] && IsSpace(s[0]) then TrimLeft(s[1..]) else s
  }

  function TrimRight(s: string): string
  {
    if s != [] && IsSpace(s[|s| - 1]) then TrimRight(s[..|s| - 1]) else s
  }

  function TrimSpace(s: string): string
  {
    TrimRight(TrimLeft(s))
  }

  lemma {:induction false} WordLenAppendSpace(t: string, c: char)
    requires IsSpace(c)
    ensures WordLen(t + [c]) == WordLen(t)
  {
    if t != [] && !IsSpace(t[0]) {
      assert (t + [c])[1..] == t[1..] + [c];
      WordLenAppendSpace(t[1..], c);
    } else if t == [] {
      assert t + [c] == [c];
    }
  }

  /** Trailing white space adds no field. */
  lemma {:induction false} FieldsAppendSpace(s: string, c: char)
    requires IsSpace(c)
    ensures Fields(s + [c]) == Fields(s)
    decreases |s|
  {
    var t := s + [c];
    if s == [] {
      assert t == [c] && t[1..] == [];
    } else if IsSpace(s[0]) {
      assert t[1..] == s[1..] + [c];
      FieldsAppendSpace(s[1..], c);
    } else {
      assert t[1..] == s[1..] + [c];
      WordLenAppendSpace(s[1..], c);
      var n := 1 + WordLen(s[1..]);
      assert t[..n] == s[..n] && t[n..] == s[n..] + [c];
      FieldsAppendSpace(s[n..], c);
    }
  }

  /** Trimming a line changes none of its fields. */
  lemma {:induction false} FieldsTrim(s: string)
    ensures Fields(TrimSpace(s)) == Fields(s)
  {
    FieldsTrimLeft(s);
    FieldsTrimRight(TrimLeft(s));
  }

  lemma {:induction false} FieldsTrimLeft(s: string)
    ensures Fields(TrimLeft(s)) == Fields(s)
  {
    if s != [] && IsSpace(s[0]) {
      FieldsTrimLeft(s[1..]);
    }
  }

  lemma {:induction false} FieldsTrimRight(s: string)
    ensures Fields(TrimRight(s)) == Fields(s)
  {
    if s != [] && IsSpace(s[|s| - 1]) {
      var init := s[..|s| - 1];
      FieldsTrimRight(init);
      assert s == init + [s[|s| - 1]];
      FieldsAppendSpace(init, s[|s| - 1]);
    }
  }

  lemma {:induction false} TrimRightKeepsHead(s: string)
    requires |s| > 0 && !IsSpace(s[0])
    ensures |TrimRight(s)| > 0 && TrimRight(s)[0] == s[0]
  {
    if IsSpace(s[|s| - 1]) {
      TrimRightKeepsHead(s[..|s| - 1]);
    }
  }

  // ---------------------------------------------------------------------------
  // LoadVTM

  /** The loader's variables: the module so far, the pattern being filled
      (`currentPattern`, nil between patterns) and the last channel read. */
  datatype LoadState = LoadState(mod: TrackerModule, current: Option<Pattern>, channel: int)

  /** The outcome of loading: the module; the index of the line at which the
      Go runtime panics (a negative `make` length or channel index); or the
      module loaded so far, which Go returns together with the scanner's
      `ErrTooLong` when a line does not fit its buffer. */
  datatype LoadResult = Loaded(mod: TrackerModule) | Panic(line: nat) | TooLong(mod: TrackerModule)

  /** The loader part way: its state, or the index of the line that panicked. */
  datatype RunResult = Ok(state: LoadState) | Panicked(line: nat)

  /** The module `LoadVTM` starts from: tempo 120, 6 ticks per row, empty. */
  const StartModule: TrackerModule := TrackerModule("", 120, 6, [], [], [])
  const Start: LoadState := LoadState(StartModule, None, 0)

  /** Every channel of a pattern has one cell per row. */
  predicate Shaped(p: Pattern)
  {
    forall c :: 0 <= c < |p.channels| ==> |p.channels[c]| == p.rows
  }

  /** What the loader keeps true of its open pattern. */
  predicate Consistent(st: LoadState)
  {
    st.current.Some? ==> Shaped(st.current.value)
  }

  /** The pattern `PATTERN rows channels` opens: `channels` channels of `rows`
      rests. A negative channel count, or a negative row count with any
      channel to size, makes `make` panic. */
  function NewPattern(rows: int, channels: int): (p: Option<Pattern>)
    ensures p.Some? <==> channels >= 0 && (channels == 0 || rows >= 0)
    ensures p.Some? ==> p.value.rows == rows && |p.value.channels| == channels && Shaped(p.value)
    ensures p.Some? ==> forall c, r :: 0 <= c < channels && 0 <= r < rows ==> p.value.channels[c][r] == Rest
  {
    if channels < 0 || (channels > 0 && rows < 0) then None
    else Some(Pattern(rows, seq(channels, c requires 0 <= c < channels && rows >= 0 => seq(rows, _ => Rest))))
  }

  /** The number of `=` in a string. */
  function CountEq(s: string): nat
  {
    if s == [] then 0 else (if s[0] == '=' then 1 else 0) + CountEq(s[1..])
  }

  /** The text before the first `=`. */
  function Before(s: string): string
  {
    if s == [] || s[0] == '=' then [] else [s[0]] + Before(s[1..])
  }

  /** The text after the first `=`. */
  function After(s: string): string
  {
    if s == [] then [] else if s[0] == '=' then s[1..] else After(s[1..])
  }

  /** `strings.Split(s, "=")` has exactly two parts when `s` holds one `=`;
      they are `Before(s)` and `After(s)`, around that `=`. */
  lemma {:induction false} SplitOnce(s: string)
    requires CountEq(s) == 1
    ensures s == Before(s) + "=" + After(s)
    ensures CountEq(Before(s)) == 0 && CountEq(After(s)) == 0
  {
    if s[0] != '=' {
      SplitOnce(s[1..]);
      assert s == [s[0]] + s[1..];
    } else {
      assert s == "=" + s[1..];
    }
  }

  /** The `k=v` parameters of an `FMINSTRUMENT` line: a field with exactly one
      `=` sets its key, later fields overriding earlier ones; others are ignored. */
  function Params(fields: seq<string>): map<string, string>
  {
    if fields == [] then map[]
    else
      var m := Params(fields[..|fields| - 1]);
      var f := fields[|fields| - 1];
      if CountEq(f) == 1 then m[Before(f) := After(f)] else m
  }

  /** A key is set exactly when some field with one `=` names it, and it holds
      the value of the last such field. */
  lemma {:induction false} ParamsKeys(fields: seq<string>, k: string)
    ensures k in Params(fields) <==>
      exists i :: 0 <= i < |fields| && CountEq(fields[i]) == 1 && Before(fields[i]) == k
    ensures k in Params(fields) ==>
      exists i :: 0 <= i < |fields| && CountEq(fields[i]) == 1 && Before(fields[i]) == k
        && Params(fields)[k] == After(fields[i])
        && forall j :: i < j < |fields| ==> !(CountEq(fields[j]) == 1 && Before(fields[j]) == k)
  {
    if fields != [] {
      var init := fields[..|fields| - 1];
      var f := fields[|fields| - 1];
      ParamsKeys(init, k);
      assert forall i :: 0 <= i < |init| ==> init[i] == fields[i];
      if CountEq(f) == 1 && Before(f) == k {
        assert Params(fields)[k] == After(fields[|fields| - 1]);
      }
    }
  }

  /** The cells a `CH` line sets: token `k` becomes row `k` while `k` is below
      the pattern's row count; the other rows keep their cells. */
  function FillChannel(cells: seq<TrackerNote>, rows: int, tokens: seq<string>): seq<TrackerNote>
  {
    seq(|cells|, r requires 0 <= r < |cells| =>
      if r < |tokens| && r < rows then ParseTrackerNote(tokens[r]) else cells[r])
  }

  /** The numbers of a `SEQUENCE` line, in order. */
  function SequenceNumbers(tokens: seq<string>): seq<int>
  {
    seq(|tokens|, i requires 0 <= i < |tokens| => Atoi(tokens[i]))
  }

  /** The command of a line, given as its fields; `None` is a panic. Unknown
      commands, and commands with too few fields, are ignored. `pf` is
      `strconv.ParseFloat` with its error ignored. */
  function LoadLine(st: LoadState, parts: seq<string>, pf: string -> real): (r: Option<LoadState>)
    requires Consistent(st)
    ensures r.Some? ==> Consistent(r.value)
  {
    var m := st.mod;
    if |parts| == 0 then Some(st)
    else
      var command := parts[0];
      if command == "TITLE" then
        if |parts| > 1 then Some(st.(mod := m.(title := Unwords(parts[1..])))) else Some(st)
      else if command == "TEMPO" then
        if |parts| > 1 then Some(st.(mod := m.(tempo := Atoi(parts[1])))) else Some(st)
      else if command == "INSTRUMENT" then
        if |parts| >= 7 then
          var inst := Instrument(parts[1], ParseWaveType(parts[2]),
                                 pf(parts[3]), pf(parts[4]), pf(parts[5]), pf(parts[6]),
                                 false, "", 0, map[]);
          Some(st.(mod := m.(instruments := m.instruments + [inst])))
        else Some(st)
      else if command == "FMINSTRUMENT" then
        if |parts| >= 3 then
          var inst := Instrument(parts[1], 0, 0.0, 0.0, 0.0, 0.0,
                                 true, ToUpper(parts[2]), 0, Params(parts[3..]));
          Some(st.(mod := m.(instruments := m.instruments + [inst])))
        else Some(st)
      else if command == "PATTERN" then
        if |parts| > 2 then
          var p := NewPattern(Atoi(parts[1]), Atoi(parts[2]));
          if p.None? then None else Some(st.(current := p))
        else Some(st)
      else if command == "CH" then
        if st.current.Some? && |parts| >= 3 then
          var p := st.current.value;
          var ch := Atoi(TrimColon(parts[1]));
          if ch < 0 && p.rows > 0 then None
          else if ch < 0 || ch >= |p.channels| then Some(st.(channel := ch))
          else
            var cells := FillChannel(p.channels[ch], p.rows, parts[2..]);
            Some(st.(channel := ch, current := Some(p.(channels := p.channels[ch := cells]))))
        else Some(st)
      else if command == "ENDPATTERN" then
        if st.current.Some? then
          Some(st.(mod := m.(patterns := m.patterns + [st.current.value]), current := None))
        else Some(st)
      else if command == "SEQUENCE" then
        Some(st.(mod := m.(sequence := m.sequence + SequenceNumbers(parts[1..]))))
      else Some(st)
  }

  /** A line the loader skips: blank, or a `#` comment, once trimmed. */
  predicate Skipped(line: string)
  {
    var t := TrimSpace(line);
    t == [] || t[0] == '#'
  }

  /** One line of the file. */
  function LoadText(st: LoadState, line: string, pf: string -> real): (r: Option<LoadState>)
    requires Consistent(st)
    ensures r.Some? ==> Consistent(r.value)
  {
    if Skipped(line) then Some(st) else LoadFields(st, line, pf)
  }

  /** A line that is not skipped is split into fields and dispatched. */
  function LoadFields(st: LoadState, line: string, pf: string -> real): (r: Option<LoadState>)
    requires Consistent(st) && !Skipped(line)
    ensures r.Some? ==> Consistent(r.value)
  {
    LoadLine(st, Fields(TrimSpace(line)), pf)
  }

  /** A panic at line `k` of a block is one at `k + offset` of the whole. */
  function Shift(r: RunResult, offset: nat): RunResult
  {
    if r.Ok? then r else Panicked(r.line + offset)
  }

  /** The loader over a list of lines. */
  function Run(st: LoadState, lines: seq<string>, pf: string -> real): (r: RunResult)
    requires Consistent(st)
    ensures r.Ok? ==> Consistent(r.state)
    ensures r.Panicked? ==> r.line < |lines|
    decreases |lines|
  {
    if lines == [] then Ok(st)
    else
      var next := LoadText(st, lines[0], pf);
      if next.None? then Panicked(0) else Shift(Run(next.value, lines[1..], pf), 1)
  }

  /** Loading two blocks of lines is loading the first, then the second from
      where the first left off; a panic in the second is counted from the
      start of the first. */
  lemma {:induction false} RunAppend(st: LoadState, a: seq<string>, b: seq<string>, pf: string -> real)
    requires Consistent(st)
    ensures Run(st, a + b, pf) ==
      var ra := Run(st, a, pf);
      if ra.Ok? then Shift(Run(ra.state, b, pf), |a|) else ra
    decreases |a|
  {
    if a == [] {
      assert a + b == b;
    } else {
      assert (a + b)[0] == a[0] && (a + b)[1..] == a[1..] + b;
      var next := LoadText(st, a[0], pf);
      if next.Some? {
        RunAppend(next.value, a[1..], b, pf);
      }
    }
  }

  /** `LoadVTM` on the lines the scanner yields. */
  function Load(text: seq<string>, pf: string -> real): LoadResult
  {
    var r := Run(Start, text, pf);
    if r.Ok? then Loaded(r.state.mod) else Panic(r.line)
  }

  // ---------------------------------------------------------------------------
  // bufio.Scanner with its default split function ScanLines

  /** `bufio.MaxScanTokenSize`: the most bytes the scanner's buffer grows to. */
  const MaxScanTokenSize: int := 64 * 1024

  predicate NoNewline(s: string)
  {
    forall j :: 0 <= j < |s| ==> s[j] != '\n'
  }

  /** The index of the first '\n' of `s`, or `|s|` when there is none. */
  function LineEnd(s: string): (i: nat)
    ensures i <= |s| && NoNewline(s[..i])
    ensures i < |s| ==> s[i] == '\n'
  {
    if s == [] || s[0] == '\n' then 0
    else
      var i := 1 + LineEnd(s[1..]);
      assert forall j :: 1 <= j < i ==> s[..i][j] == s[1..][..i - 1][j - 1];
      i
  }

  /** `dropCR`: one carriage return at the end of a line is removed. */
  function DropCR(s: string): (t: string)
    ensures NoNewline(s) ==> NoNewline(t)
  {
    if |s| > 0 && s[|s| - 1] == '\r' then s[..|s| - 1] else s
  }

  /** What the scanner yields from a file before it stops, and whether it
      stopped with `ErrTooLong`. */
  datatype Scan = Scan(lines: seq<string>, tooLong: bool)

  /** The scanner over a whole file. Each line is the text up to the next
      '\n', less one trailing '\r'; text after the last '\n' is a last line.
      A line of `MaxScanTokenSize` bytes or more cannot sit in the buffer
      with its '\n', so the scan stops there with `ErrTooLong`. */
  function ScanLines(data: string): (r: Scan)
    ensures forall k :: 0 <= k < |r.lines| ==> NoNewline(r.lines[k])
    ensures |r.lines| <= |data|
    decreases |data|
  {
    if data == [] then Scan([], false)
    else
      var i := LineEnd(data);
      if |Utf8Bytes(data[..i])| >= MaxScanTokenSize then Scan([], true)
      else if i == |data| then Scan([DropCR(data)], false)
      else
        var rest := ScanLines(data[i + 1..]);
        Scan([DropCR(data[..i])] + rest.lines, rest.tooLong)
  }

  /** A file of lines, each followed by '\n', as `fmt.Fprintf` writes them. */
  function JoinLines(lines: seq<string>): string
  {
    if lines == [] then "" else lines[0] + "\n" + JoinLines(lines[1..])
  }

  /** A line the scanner gives back as it was written: no '\n' in it, no
      '\r' at its end, and fewer than `MaxScanTokenSize` bytes. */
  predicate Scannable(line: string)
  {
    NoNewline(line) && (line == [] || line[|line| - 1] != '\r') && |Utf8Bytes(line)| < MaxScanTokenSize
  }

  /** A line with no '\n' ends at the '\n' written after it. */
  lemma {:induction false} LineEndAfter(l: string, t: string)
    requires NoNewline(l)
    ensures LineEnd(l + "\n" + t) == |l|
  {
    if l != [] {
      assert (l + "\n" + t)[1..] == l[1..] + "\n" + t;
      assert NoNewline(l[1..]) by {
        forall j | 0 <= j < |l[1..]| ensures l[1..][j] != '\n' {
          assert l[1..][j] == l[j + 1];
        }
      }
      LineEndAfter(l[1..], t);
    }
  }

  /** A scannable line followed by '\n' is yielded as it is, and the scan goes
      on after the '\n'. */
  lemma ScanLineStep(l: string, rest: string)
    requires Scannable(l)
    ensures ScanLines(l + "\n" + rest) ==
      Scan([l] + ScanLines(rest).lines, ScanLines(rest).tooLong)
  {
    var data := l + "\n" + rest;
    LineEndAfter(l, rest);
    var i := LineEnd(data);
    assert i == |l| && i < |data|;
    assert data[..i] == l;
    assert |Utf8Bytes(data[..i])| < MaxScanTokenSize;
    assert DropCR(data[..i]) == l;
    assert data[i + 1..] == rest;
  }

  /** Writing scannable lines and scanning the file gives the same lines back,
      with no error. */
  lemma {:induction false} ScanJoinLines(lines: seq<string>)
    requires forall k :: 0 <= k < |lines| ==> Scannable(lines[k])
    ensures ScanLines(JoinLines(lines)) == Scan(lines, false)
  {
    if lines != [] {
      ScanJoinLines(lines[1..]);
      ScanLineStep(lines[0], JoinLines(lines[1..]));
      assert [lines[0]] + lines[1..] == lines;
    }
  }

  /** `LoadVTM` on the text of a file: the lines the scanner yields are
      loaded, and when the scanner stopped early Go returns the module so
      far together with its error. */
  function LoadFile(data: string, pf: string -> real): (r: LoadResult)
    ensures !ScanLines(data).tooLong ==> r == Load(ScanLines(data).lines, pf)
    ensures ScanLines(data).tooLong ==> !r.Loaded?
  {
    var scan := ScanLines(data);
    var r := Load(scan.lines, pf);
    if r.Loaded? && scan.tooLong then TooLong(r.mod) else r
  }

  /** A '\n' inside a saved string splits its line: the scanner reads the
      text after it as a line of its own. */
  lemma NewlineSplitsLine(a: string, b: string)
    requires Scannable(a) && Scannable(b)
    ensures ScanLines(JoinLines([a + "\n" + b])) == Scan([a, b], false)
  {
    assert [a, b][1..] == [b] && [b][1..] == [] && [a + "\n" + b][1..] == [];
    assert JoinLines([a + "\n" + b]) == JoinLines([a, b]);
    ScanJoinLines([a, b]);
  }

  // The loader, statement by statement as the Go code runs it.

  /** The `make` loops of `PATTERN`. */
  method MakePattern(rows: int, channels: int) returns (p: Pattern)
    requires channels >= 0 && (channels == 0 || rows >= 0)
    ensures NewPattern(rows, channels) == Some(p)
  {
    var chans: seq<seq<TrackerNote>> := [];
    var i := 0;
    while i < channels
      invariant 0 <= i <= channels && |chans| == i
      invariant forall c :: 0 <= c < i ==> chans[c] == seq(rows, _ => Rest)
    {
      var cells: seq<TrackerNote> := [];
      var j := 0;
      while j < rows
        invariant 0 <= j <= rows && |cells| == j
        invariant forall r :: 0 <= r < j ==> cells[r] == Rest
      {
        cells := cells + [Rest];
        j := j + 1;
      }
      assert cells == seq(rows, _ => Rest);
      chans := chans + [cells];
      i := i + 1;
    }
    assert chans == seq(channels, c requires 0 <= c < channels && rows >= 0 => seq(rows, _ => Rest));
    p := Pattern(rows, chans);
  }

  /** The `CH` loop: it stops at the last token or at the last row. */
  method FillRows(cells: seq<TrackerNote>, rows: int, tokens: seq<string>) returns (c: seq<TrackerNote>)
    requires rows <= |cells|
    ensures c == FillChannel(cells, rows, tokens)
  {
    c := cells;
    var k := 0;
    while k < |tokens|
      invariant 0 <= k <= |tokens| && |c| == |cells|
      invariant k == 0 || k <= rows
      invariant c == FillChannel(cells, rows, tokens[..k])
    {
      if k >= rows {
        break;
      }
      assert c[k := ParseTrackerNote(tokens[k])] == FillChannel(cells, rows, tokens[..k + 1]);
      c := c[k := ParseTrackerNote(tokens[k])];
      k := k + 1;
    }
    assert FillChannel(cells, rows, tokens[..k]) == FillChannel(cells, rows, tokens);
  }

  /** The parameter loop of `FMINSTRUMENT`. */
  method ParseParams(fields: seq<string>) returns (m: map<string, string>)
    ensures m == Params(fields)
  {
    m := map[];
    var i := 0;
    while i < |fields|
      invariant 0 <= i <= |fields|
      invariant m == Params(fields[..i])
    {
      assert fields[..i + 1][..i] == fields[..i];
      var f := fields[i];
      if CountEq(f) == 1 {
        m := m[Before(f) := After(f)];
      }
      i := i + 1;
    }
    assert fields[..i] == fields;
  }

  /** The loop of `SEQUENCE`, appending to the module's sequence. */
  method AppendSequence(sequence: seq<int>, tokens: seq<string>) returns (s: seq<int>)
    ensures s == sequence + SequenceNumbers(tokens)
  {
    s := sequence;
    var i := 0;
    while i < |tokens|
      invariant 0 <= i <= |tokens|
      invariant s == sequence + SequenceNumbers(tokens[..i])
    {
      assert SequenceNumbers(tokens[..i + 1]) == SequenceNumbers(tokens[..i]) + [Atoi(tokens[i])];
      s := s + [Atoi(tokens[i])];
      i := i + 1;
    }
    assert tokens[..i] == tokens;
  }

  /** The `switch` of the loop of `LoadVTM`; `None` is a panic. */
  method ProcessLine(st: LoadState, parts: seq<string>, pf: string -> real) returns (r: Option<LoadState>)
    requires Consistent(st)
    ensures r == LoadLine(st, parts, pf)
  {
    var tm, current, channel := st.mod, st.current, st.channel;
    if |parts| == 0 {
      return Some(st);
    }
    var command := parts[0];
    if command == "TITLE" {
      if |parts| > 1 {
        tm := tm.(title := Unwords(parts[1..]));
      }
    } else if command == "TEMPO" {
      if |parts| > 1 {
        tm := tm.(tempo := Atoi(parts[1]));
      }
    } else if command == "INSTRUMENT" {
      if |parts| >= 7 {
        var inst := Instrument(parts[1], ParseWaveType(parts[2]), 0.0, 0.0, 0.0, 0.0, false, "", 0, map[]);
        inst := inst.(attack := pf(parts[3]));
        inst := inst.(decay := pf(parts[4]));
        inst := inst.(sustain := pf(parts[5]));
        inst := inst.(release := pf(parts[6]));
        tm := tm.(instruments := tm.instruments + [inst]);
      }
    } else if command == "FMINSTRUMENT" {
      if |parts| >= 3 {
        var params := ParseParams(parts[3..]);
        var inst := Instrument(parts[1], 0, 0.0, 0.0, 0.0, 0.0, true, ToUpper(parts[2]), 0, params);
        tm := tm.(instruments := tm.instruments + [inst]);
      }
    } else if command == "PATTERN" {
      if |parts| > 2 {
        var rows := Atoi(parts[1]);
        var channels := Atoi(parts[2]);
        if channels < 0 || (channels > 0 && rows < 0) {
          return None;
        }
        var p := MakePattern(rows, channels);
        current := Some(p);
      }
    } else if command == "CH" {
      if current.Some? && |parts| >= 3 {
        var p := current.value;
        channel := Atoi(TrimColon(parts[1]));
        if channel < 0 && p.rows > 0 {
          return None;
        }
        if 0 <= channel < |p.channels| {
          var cells := FillRows(p.channels[channel], p.rows, parts[2..]);
          current := Some(p.(channels := p.channels[channel := cells]));
        }
      }
    } else if command == "ENDPATTERN" {
      if current.Some? {
        tm := tm.(patterns := tm.patterns + [current.value]);
        current := None;
      }
    } else if command == "SEQUENCE" {
      var s := AppendSequence(tm.sequence, parts[1..]);
      tm := tm.(sequence := s);
    }
    r := Some(LoadState(tm, current, channel));
  }

  /** `LoadVTM` after the file is opened, on its text: each line the scanner
      yields is trimmed, skipped when blank or a comment, else split and
      dispatched; then the scanner's error is returned with the module. */
  method LoadVTM(data: string, pf: string -> real) returns (r: LoadResult)
    ensures r == LoadFile(data, pf)
  {
    var scan := ScanLines(data);
    r := LoadLines(scan.lines, pf);
    if r.Loaded? && scan.tooLong {
      r := TooLong(r.mod);
    }
  }

  /** The scanning loop of `LoadVTM` over the lines the scanner yields. */
  method LoadLines(text: seq<string>, pf: string -> real) returns (r: LoadResult)
    ensures r == Load(text, pf)
  {
    var st := Start;
    var i := 0;
    while i < |text|
      invariant 0 <= i <= |text| && Consistent(st)
      invariant Run(Start, text[..i], pf) == Ok(st)
    {
      var line := TrimSpace(text[i]);
      var next := Some(st);
      if !(line == [] || line[0] == '#') {
        var parts := Fields(line);
        next := ProcessLine(st, parts, pf);
      }
      assert next == LoadText(st, text[i], pf);
      RunAppend(Start, text[..i], text[i..], pf);
      assert text[..i] + text[i..] == text;
      if next.None? {
        return Panic(i);
      }
      RunAppend(Start, text[..i], [text[i]], pf);
      assert text[..i + 1] == text[..i] + [text[i]];
      st := next.value;
      i := i + 1;
    }
    assert text[..i] == text;
    r := Loaded(st.mod);
  }

  // ---------------------------------------------------------------------------
  // What each line does

  /** A line of white space only is skipped. */
  lemma BlankLine(st: LoadState, line: string, pf: string -> real)
    requires Consistent(st)
    requires forall j :: 0 <= j < |line| ==> IsSpace(line[j])
    ensures LoadText(st, line, pf) == Some(st)
  {
    BlankTrims(line);
  }

  lemma {:induction false} BlankTrims(line: string)
    requires forall j :: 0 <= j < |line| ==> IsSpace(line[j])
    ensures TrimLeft(line) == []
  {
    if line != [] {
      BlankTrims(line[1..]);
    }
  }

  /** A line whose first character other than white space is `#` is skipped. */
  lemma CommentLine(st: LoadState, indent: string, rest: string, pf: string -> real)
    requires Consistent(st)
    requires forall j :: 0 <= j < |indent| ==> IsSpace(indent[j])
    ensures LoadText(st, indent + "#" + rest, pf) == Some(st)
  {
    SkipIndent(indent, "#" + rest);
    assert indent + "#" + rest == indent + ("#" + rest);
    TrimRightKeepsHead("#" + rest);
  }

  lemma {:induction false} SkipIndent(indent: string, s: string)
    requires forall j :: 0 <= j < |indent| ==> IsSpace(indent[j])
    requires |s| > 0 && !IsSpace(s[0])
    ensures TrimLeft(indent + s) == s
  {
    if indent != [] {
      assert (indent + s)[1..] == indent[1..] + s;
      SkipIndent(indent[1..], s);
    } else {
      assert indent + s == s;
    }
  }

  /** A line that starts with a field other than a comment is dispatched on
      that field and the fields that follow it. */
  lemma CommandLine(w: string, x: string)
    requires Word(w) && w[0] != '#'
    ensures !Skipped(w + " " + x)
    ensures Fields(TrimSpace(w + " " + x)) == [w] + Fields(x)
  {
    var s := w + " " + x;
    assert s[0] == w[0];
    TrimRightKeepsHead(s);
    FieldsTrim(s);
    FieldsHead(w, x);
  }

  /** The same for a line that `strings.Join` put together from fields. */
  lemma CommandText(ts: seq<string>)
    requires forall i :: 0 <= i < |ts| ==> Word(ts[i])
    requires |ts| > 0 && ts[0] != [] && ts[0][0] != '#'
    ensures !Skipped(Unwords(ts))
    ensures Fields(TrimSpace(Unwords(ts))) == ts
  {
    var s := Unwords(ts);
    if |ts| == 1 {
      assert s == ts[0];
    } else {
      assert s == ts[0] + " " + Unwords(ts[1..]);
    }
    assert s[0] == ts[0][0];
    TrimRightKeepsHead(s);
    FieldsTrim(s);
    FieldsUnwords(ts);
  }

  /** `PATTERN r c` opens a pattern of `c` channels of `r` rests, replacing any
      pattern still open, or panics on a negative size; fewer than three fields
      are ignored. */
  lemma PatternLine(st: LoadState, parts: seq<string>, pf: string -> real)
    requires Consistent(st) && |parts| > 0 && parts[0] == "PATTERN"
    ensures |parts| <= 2 ==> LoadLine(st, parts, pf) == Some(st)
    ensures |parts| > 2 ==>
      var rows, channels := Atoi(parts[1]), Atoi(parts[2]);
      var r := LoadLine(st, parts, pf);
      (r.None? <==> channels < 0 || (channels > 0 && rows < 0)) &&
      (r.Some? ==>
        r.value.mod == st.mod && r.value.current.Some? &&
        r.value.current.value.rows == rows && |r.value.current.value.channels| == channels &&
        forall c, k :: 0 <= c < channels && 0 <= k < rows ==> r.value.current.value.channels[c][k] == Rest)
  {
  }

  /** `CH n: t0 t1 …` sets row `k` of channel `n` from token `k` while `k` is a
      row, leaving every other cell and channel alone; an index past the last
      channel, and a `CH` with no open pattern, change no cell. */
  lemma ChannelLine(st: LoadState, parts: seq<string>, pf: string -> real)
    requires Consistent(st) && |parts| >= 3 && parts[0] == "CH"
    ensures st.current.None? ==> LoadLine(st, parts, pf) == Some(st)
    ensures st.current.Some? ==>
      var p := st.current.value;
      var n := Atoi(TrimColon(parts[1]));
      var r := LoadLine(st, parts, pf);
      (r.None? <==> n < 0 && p.rows > 0) &&
      (r.Some? ==>
        r.value.mod == st.mod && r.value.channel == n && r.value.current.Some? &&
        var q := r.value.current.value;
        q.rows == p.rows && |q.channels| == |p.channels| &&
        (forall c :: 0 <= c < |p.channels| && c != n ==> q.channels[c] == p.channels[c]) &&
        (0 <= n < |p.channels| ==> forall k :: 0 <= k < p.rows ==>
           q.channels[n][k] == if k < |parts| - 2 then ParseTrackerNote(parts[k + 2]) else p.channels[n][k]))
  {
  }

  /** `ENDPATTERN` appends the open pattern and closes it; with none open it
      does nothing. */
  lemma EndPatternLine(st: LoadState, parts: seq<string>, pf: string -> real)
    requires Consistent(st) && |parts| > 0 && parts[0] == "ENDPATTERN"
    ensures st.current.None? ==> LoadLine(st, parts, pf) == Some(st)
    ensures st.current.Some? ==>
      LoadLine(st, parts, pf) == Some(st.(mod := st.mod.(patterns := st.mod.patterns + [st.current.value]), current := None))
  {
  }

  /** Only `ENDPATTERN` adds patterns: over lines with no `ENDPATTERN`, in
      particular after a `PATTERN` that is never closed, the patterns stay as
      they were. */
  lemma {:induction false} UnclosedPatternDropped(st: LoadState, lines: seq<string>, pf: string -> real)
    requires Consistent(st)
    requires forall i :: 0 <= i < |lines| ==> Fields(lines[i]) == [] || Fields(lines[i])[0] != "ENDPATTERN"
    ensures Run(st, lines, pf).Ok? ==> Run(st, lines, pf).state.mod.patterns == st.mod.patterns
    decreases |lines|
  {
    if lines != [] {
      var next := LoadText(st, lines[0], pf);
      if next.Some? {
        KeepsPatterns(st, lines[0], pf);
        UnclosedPatternDropped(next.value, lines[1..], pf);
      }
    }
  }

  /** A line that is not `ENDPATTERN` leaves the patterns as they were. */
  lemma KeepsPatterns(st: LoadState, line: string, pf: string -> real)
    requires Consistent(st) && (Fields(line) == [] || Fields(line)[0] != "ENDPATTERN")
    ensures var r := LoadText(st, line, pf);
      r.Some? ==> r.value.mod.patterns == st.mod.patterns
  {
    if !Skipped(line) {
      FieldsTrim(line);
      LineKeepsPatterns(st, Fields(TrimSpace(line)), pf);
    }
  }

  lemma LineKeepsPatterns(st: LoadState, parts: seq<string>, pf: string -> real)
    requires Consistent(st) && (parts == [] || parts[0] != "ENDPATTERN")
    ensures var r := LoadLine(st, parts, pf);
      r.Some? ==> r.value.mod.patterns == st.mod.patterns
  {
  }

  /** `SEQUENCE` appends its numbers to those of earlier `SEQUENCE` lines. */
  lemma SequenceLines(st: LoadState, a: seq<string>, b: seq<string>, pf: string -> real)
    requires Consistent(st)
    ensures var s1 := LoadLine(st, ["SEQUENCE"] + a, pf);
      s1.Some? &&
      var s2 := LoadLine(s1.value, ["SEQUENCE"] + b, pf);
      s2.Some? && s2.value.mod.sequence == st.mod.sequence + SequenceNumbers(a) + SequenceNumbers(b) &&
      s2.value.mod.(sequence := st.mod.sequence) == st.mod && s2.value.current == st.current
  {
    assert (["SEQUENCE"] + a)[1..] == a && (["SEQUENCE"] + b)[1..] == b;
  }

  /** `INSTRUMENT` needs seven fields, `FMINSTRUMENT` three; the preset name
      is upper-cased and the extra fields become parameters. */
  lemma InstrumentLines(st: LoadState, parts: seq<string>, pf: string -> real)
    requires Consistent(st) && |parts| > 0 && (parts[0] == "INSTRUMENT" || parts[0] == "FMINSTRUMENT")
    ensures var r := LoadLine(st, parts, pf);
      r.Some? && r.value.current == st.current && r.value.channel == st.channel &&
      r.value.mod.(instruments := st.mod.instruments) == st.mod
    ensures parts[0] == "INSTRUMENT" ==>
      var ins := LoadLine(st, parts, pf).value.mod.instruments;
      if |parts| < 7 then ins == st.mod.instruments
      else ins == st.mod.instruments + [Instrument(parts[1], ParseWaveType(parts[2]),
                  pf(parts[3]), pf(parts[4]), pf(parts[5]), pf(parts[6]), false, "", 0, map[])]
    ensures parts[0] == "FMINSTRUMENT" ==>
      var ins := LoadLine(st, parts, pf).value.mod.instruments;
      if |parts| < 3 then ins == st.mod.instruments
      else
        |ins| == |st.mod.instruments| + 1 && ins[..|ins| - 1] == st.mod.instruments &&
        ins[|ins| - 1].isFM && ins[|ins| - 1].name == parts[1] && ins[|ins| - 1].fmPreset == ToUpper(parts[2]) &&
        ins[|ins| - 1].fmParams == Params(parts[3..])
  {
  }

  /** Loading a line that does not panic, then the rest. */
  lemma RunCons(st: LoadState, line: string, rest: seq<string>, next: LoadState, pf: string -> real)
    requires Consistent(st) && LoadText(st, line, pf) == Some(next)
    ensures Run(st, [line] + rest, pf) == Shift(Run(next, rest, pf), 1)
  {
    assert ([line] + rest)[0] == line && ([line] + rest)[1..] == rest;
  }

  lemma RunThen(st: LoadState, a: seq<string>, b: seq<string>, pf: string -> real)
    requires Consistent(st) && Run(st, a, pf).Ok?
    ensures Run(st, a + b, pf) == Shift(Run(Run(st, a, pf).state, b, pf), |a|)
  {
    RunAppend(st, a, b, pf);
  }

  /** Two blocks that both load without a panic load together to the state
      the second leaves. */
  lemma RunChain(st: LoadState, a: seq<string>, b: seq<string>, mid: LoadState, pf: string -> real)
    requires Consistent(st) && Run(st, a, pf) == Ok(mid) && Run(mid, b, pf).Ok?
    ensures Run(st, a + b, pf) == Run(mid, b, pf)
  {
    RunAppend(st, a, b, pf);
  }

  // ---------------------------------------------------------------------------
  // SaveVTM
  /** The token `SaveVTM` writes for a cell: every negative note is a rest. */
  function CellToken(n: TrackerNote): string
  {
    if n.note < 0 then "---" else FormatNote(n.note)
  }

  /** The row count `SaveVTM` loops over: none when it is negative. */
  function RowCount(rows: int): nat
  {
    if rows < 0 then 0 else rows
  }

  /** `SaveVTM` indexes every row of every channel, so each channel must be at
      least as long as the pattern. */
  predicate Printable(p: Pattern)
  {
    forall c :: 0 <= c < |p.channels| ==> p.rows <= |p.channels[c]|
  }

  function RowTokens(cells: seq<TrackerNote>, rows: int): (ts: seq<string>)
    requires rows <= |cells|
    ensures |ts| == RowCount(rows)
  {
    seq(RowCount(rows), r requires 0 <= r < RowCount(rows) => CellToken(cells[r]))
  }

  /** `CH n:` followed by the row tokens of channel `n`. */
  function ChannelText(p: Pattern, c: nat): string
    requires Printable(p) && c < |p.channels|
  {
    Unwords(["CH", FormatInt(c) + ":"] + RowTokens(p.channels[c], p.rows))
  }

  function ChannelLines(p: Pattern): (ls: seq<string>)
    requires Printable(p)
    ensures |ls| == |p.channels| && forall c :: 0 <= c < |p.channels| ==> ls[c] == ChannelText(p, c)
  {
    seq(|p.channels|, c requires 0 <= c < |p.channels| => ChannelText(p, c))
  }

  /** The block of one pattern: its header, a line per channel, `ENDPATTERN`
      and a blank line. */
  function PatternText(p: Pattern): seq<string>
    requires Printable(p)
  {
    [Unwords(["PATTERN", FormatInt(p.rows), FormatInt(|p.channels|)])] + ChannelLines(p) + ["ENDPATTERN", ""]
  }

  function PatternsText(ps: seq<Pattern>): seq<string>
    requires forall i :: 0 <= i < |ps| ==> Printable(ps[i])
  {
    if ps == [] then [] else PatternText(ps[0]) + PatternsText(ps[1..])
  }

  /** An instrument's line. `ff` is the `%.3f` formatting and `order` the
      iteration order of the parameter map. */
  function InstrumentText(inst: Instrument, ff: real -> string, order: map<string, string> -> seq<(string, string)>): string
  {
    if inst.isFM then
      var kv := order(inst.fmParams);
      Unwords(["FMINSTRUMENT", inst.name, inst.fmPreset] + seq(|kv|, i requires 0 <= i < |kv| => kv[i].0 + "=" + kv[i].1))
    else
      Unwords(["INSTRUMENT", inst.name, WaveTypeToString(inst.waveType),
               ff(inst.attack), ff(inst.decay), ff(inst.sustain), ff(inst.release)])
  }

  function InstrumentsText(insts: seq<Instrument>, ff: real -> string, order: map<string, string> -> seq<(string, string)>): (ls: seq<string>)
    ensures |ls| == |insts| && forall i :: 0 <= i < |insts| ==> ls[i] == InstrumentText(insts[i], ff, order)
  {
    seq(|insts|, i requires 0 <= i < |insts| => InstrumentText(insts[i], ff, order))
  }

  /** The entries of the sequence, printed. */
  function SequenceWords(sequence: seq<int>): (ws: seq<string>)
    ensures |ws| == |sequence| && forall i :: 0 <= i < |sequence| ==> ws[i] == FormatInt(sequence[i])
  {
    seq(|sequence|, i requires 0 <= i < |sequence| => FormatInt(sequence[i]))
  }

  function SequenceText(sequence: seq<int>): string
  {
    Unwords(["SEQUENCE"] + SequenceWords(sequence))
  }

  /** The lines `SaveVTM` writes: a comment, the title and tempo, the
      instruments, the patterns and the sequence, with blank lines between. */
  function SaveText(m: TrackerModule, ff: real -> string, order: map<string, string> -> seq<(string, string)>): seq<string>
    requires forall i :: 0 <= i < |m.patterns| ==> Printable(m.patterns[i])
  {
    ["#" + " VESAsterizer Tracker Module", "TITLE" + " " + m.title, "TEMPO" + " " + FormatInt(m.tempo), ""]
    + InstrumentsText(m.instruments, ff, order) + [""]
    + PatternsText(m.patterns) + [SequenceText(m.sequence)]
  }

  /** `SaveVTM` after the file is created: line by line, as its loops print,
      each line followed by '\n'. */
  method SaveVTM(m: TrackerModule, ff: real -> string, order: map<string, string> -> seq<(string, string)>) returns (data: string)
    requires forall i :: 0 <= i < |m.patterns| ==> Printable(m.patterns[i])
    ensures data == JoinLines(SaveText(m, ff, order))
  {
    var insts: seq<string> := [];
    for i := 0 to |m.instruments|
      invariant insts == InstrumentsText(m.instruments[..i], ff, order)
    {
      insts := insts + [InstrumentText(m.instruments[i], ff, order)];
    }
    assert m.instruments[..|m.instruments|] == m.instruments;
    var pats: seq<string> := [];
    for k := 0 to |m.patterns|
      invariant pats == PatternsText(m.patterns[..k])
    {
      var block := WritePattern(m.patterns[k]);
      PatternsTextAppend(m.patterns[..k], m.patterns[k]);
      assert m.patterns[..k + 1] == m.patterns[..k] + [m.patterns[k]];
      pats := pats + block;
    }
    assert m.patterns[..|m.patterns|] == m.patterns;
    var last := WriteSequence(m.sequence);
    var text := ["#" + " VESAsterizer Tracker Module", "TITLE" + " " + m.title, "TEMPO" + " " + FormatInt(m.tempo), ""]
                + insts + [""] + pats + [last];
    data := JoinLines(text);
  }

  /** The loop that prints the sequence. */
  method WriteSequence(sequence: seq<int>) returns (line: string)
    ensures line == SequenceText(sequence)
  {
    var tokens := ["SEQUENCE"];
    for i := 0 to |sequence|
      invariant tokens == ["SEQUENCE"] + SequenceWords(sequence[..i])
    {
      assert SequenceWords(sequence[..i + 1]) == SequenceWords(sequence[..i]) + [FormatInt(sequence[i])];
      tokens := tokens + [FormatInt(sequence[i])];
    }
    assert sequence[..|sequence|] == sequence;
    line := Unwords(tokens);
  }

  /** The loops that print one pattern. */
  method WritePattern(p: Pattern) returns (block: seq<string>)
    requires Printable(p)
    ensures block == PatternText(p)
  {
    var header := Unwords(["PATTERN", FormatInt(p.rows), FormatInt(|p.channels|)]);
    block := [header];
    for ch := 0 to |p.channels|
      invariant block == [header] + ChannelLines(p)[..ch]
    {
      var line := WriteChannel(p, ch);
      assert ChannelLines(p)[..ch + 1] == ChannelLines(p)[..ch] + [line];
      block := block + [line];
    }
    assert ChannelLines(p)[..|p.channels|] == ChannelLines(p);
    block := block + ["ENDPATTERN", ""];
  }

  /** The loop that prints one channel. */
  method WriteChannel(p: Pattern, ch: nat) returns (line: string)
    requires Printable(p) && ch < |p.channels|
    ensures line == ChannelText(p, ch)
  {
    var tokens := ["CH", FormatInt(ch) + ":"];
    for row := 0 to RowCount(p.rows)
      invariant tokens == ["CH", FormatInt(ch) + ":"] + RowTokens(p.channels[ch], p.rows)[..row]
    {
      assert RowTokens(p.channels[ch], p.rows)[..row + 1]
          == RowTokens(p.channels[ch], p.rows)[..row] + [CellToken(p.channels[ch][row])];
      tokens := tokens + [CellToken(p.channels[ch][row])];
    }
    assert RowTokens(p.channels[ch], p.rows)[..RowCount(p.rows)] == RowTokens(p.channels[ch], p.rows);
    line := Unwords(tokens);
  }

  lemma {:induction false} PatternsTextAppend(ps: seq<Pattern>, p: Pattern)
    requires forall i :: 0 <= i < |ps| ==> Printable(ps[i])
    requires Printable(p)
    ensures PatternsText(ps + [p]) == PatternsText(ps) + PatternText(p)
  {
    if ps == [] {
      assert [p][1..] == [];
    } else {
      assert (ps + [p])[1..] == ps[1..] + [p];
      PatternsTextAppend(ps[1..], p);
    }
  }

  // ---------------------------------------------------------------------------
  // Saving, then loading again

  /** What a saved cell reads back as: the file keeps only the note, and
      writes every negative one, a note-off included, as a rest. */
  function NormalCell(n: TrackerNote): TrackerNote
  {
    if n.note < 0 then Rest else TrackerNote(n.note, 0, 1.0, "", [])
  }

  function NormalChannel(cells: seq<TrackerNote>): (c: seq<TrackerNote>)
    ensures |c| == |cells| && forall r :: 0 <= r < |cells| ==> c[r] == NormalCell(cells[r])
  {
    seq(|cells|, r requires 0 <= r < |cells| => NormalCell(cells[r]))
  }

  function Normal(p: Pattern): (q: Pattern)
    ensures q.rows == p.rows && |q.channels| == |p.channels|
    ensures forall c :: 0 <= c < |p.channels| ==> q.channels[c] == NormalChannel(p.channels[c])
  {
    Pattern(p.rows, seq(|p.channels|, c requires 0 <= c < |p.channels| => NormalChannel(p.channels[c])))
  }

  /** The patterns of a module as a saved file reads them back. */
  function Normals(ps: seq<Pattern>): (qs: seq<Pattern>)
    ensures |qs| == |ps| && forall i :: 0 <= i < |ps| ==> qs[i] == Normal(ps[i])
  {
    if ps == [] then [] else [Normal(ps[0])] + Normals(ps[1..])
  }

  lemma NormalsCons(prefix: seq<Pattern>, ps: seq<Pattern>)
    requires ps != []
    ensures prefix + Normals(ps) == (prefix + [Normal(ps[0])]) + Normals(ps[1..])
  {
    assert Normals(ps) == [Normal(ps[0])] + Normals(ps[1..]);
  }

  /** Every note of the pattern prints as a rest or as a name of octaves 0..8. */
  predicate NotesPrintable(p: Pattern)
  {
    forall c, r :: 0 <= c < |p.channels| && 0 <= r < |p.channels[c]| ==> p.channels[c][r].note < 108
  }

  /** A saved cell is one field, and reads back as `NormalCell`. */
  lemma CellRoundTrip(n: TrackerNote)
    requires n.note < 108
    ensures Word(CellToken(n))
    ensures ParseTrackerNote(CellToken(n)) == NormalCell(n)
  {
    if n.note >= 0 {
      var s := FormatNote(n.note);
      var k := n.note % 12;
      NoteNameValue(k);
      FormatThenParse(n.note);
      assert s[0] == NoteNames[k][0] && s[1] == NoteNames[k][1];
      assert s[2] as int == '0' as int + n.note / 12;
      assert IsNoteLetter(s[0] as int);
      assert Word(s) by {
        forall j | 0 <= j < 3 ensures !IsSpace(s[j]) {
        }
      }
    }
  }

  /** A note-off is saved as a rest, and reloads as one. */
  lemma NoteOffSavedAsRest(n: TrackerNote)
    requires n.note == -2
    ensures CellToken(n) == "---" && ParseTrackerNote(CellToken(n)).note == -1
  {
  }

  /** Note 108 is the one note the loader accepts that a save does not keep:
      "B#8" reads as 108, which prints as "C-9", whose octave 9 reads as no note. */
  lemma TopNoteDoesNotRoundTrip()
    ensures ParseTrackerNote("B#8").note == 108
    ensures CellToken(TrackerNote(108, 0, 1.0, "", [])) == "C-9"
    ensures ParseTrackerNote("C-9").note == -1
  {
  }

  /** The loader's channel `c` after the `CH` lines of the first `k` channels. */
  function Partial(p: Pattern, k: nat): Pattern
  {
    Pattern(p.rows, seq(|p.channels|, c requires 0 <= c < |p.channels| =>
      if c < k then NormalChannel(p.channels[c]) else seq(|p.channels[c]|, _ => Rest)))
  }


  /** The fields of a saved `CH` line. */
  lemma ChannelFields(p: Pattern, k: nat)
    requires Printable(p) && NotesPrintable(p) && k < |p.channels|
    ensures var ts := ["CH", FormatInt(k) + ":"] + RowTokens(p.channels[k], p.rows);
      !Skipped(ChannelText(p, k)) && Fields(TrimSpace(ChannelText(p, k))) == ts
    ensures forall r :: 0 <= r < RowCount(p.rows) ==>
      ParseTrackerNote(RowTokens(p.channels[k], p.rows)[r]) == NormalCell(p.channels[k][r])
  {
    var cells := p.channels[k];
    var rowTokens := RowTokens(cells, p.rows);
    var tokens := ["CH", FormatInt(k) + ":"] + rowTokens;
    FormatIntWord(k);
    assert Word(FormatInt(k) + ":") by {
      var w := FormatInt(k) + ":";
      assert forall j :: 0 <= j < |FormatInt(k)| ==> w[j] == FormatInt(k)[j];
    }
    forall r | 0 <= r < |rowTokens|
      ensures Word(rowTokens[r]) && ParseTrackerNote(rowTokens[r]) == NormalCell(cells[r])
    {
      CellRoundTrip(cells[r]);
    }
    assert Word("CH");
    CommandText(tokens);
  }

  lemma ChannelStep(st: LoadState, p: Pattern, k: nat, pf: string -> real)
    requires Shaped(p) && NotesPrintable(p) && k < |p.channels|
    requires st.current == Some(Partial(p, k))
    ensures Consistent(st)
    ensures var r := LoadText(st, ChannelText(p, k), pf);
      r.Some? && r.value.mod == st.mod && r.value.current == Some(Partial(p, k + 1))
  {
    var rowTokens := RowTokens(p.channels[k], p.rows);
    ChannelFields(p, k);
    assert LoadText(st, ChannelText(p, k), pf) == LoadLine(st, ["CH", FormatInt(k) + ":"] + rowTokens, pf);
    ChannelLoad(st, p, k, rowTokens, pf);
  }

  /** The fields of the `CH k:` line fill channel `k` of the pattern read so far. */
  lemma ChannelLoad(st: LoadState, p: Pattern, k: nat, rowTokens: seq<string>, pf: string -> real)
    requires Shaped(p) && k < |p.channels| && st.current == Some(Partial(p, k))
    requires |rowTokens| == RowCount(p.rows)
    requires forall r :: 0 <= r < |rowTokens| ==> ParseTrackerNote(rowTokens[r]) == NormalCell(p.channels[k][r])
    ensures Consistent(st)
    ensures var r := LoadLine(st, ["CH", FormatInt(k) + ":"] + rowTokens, pf);
      r.Some? && r.value.mod == st.mod && r.value.current == Some(Partial(p, k + 1))
  {
    var parts := ["CH", FormatInt(k) + ":"] + rowTokens;
    var q := Partial(p, k);
    if p.rows == 0 {
      assert Partial(p, k + 1) == q;
    } else {
      assert TrimColon(FormatInt(k) + ":") == FormatInt(k);
      AtoiFormatInt(k);
      assert parts[2..] == rowTokens;
      var filled := FillChannel(q.channels[k], p.rows, rowTokens);
      assert filled == NormalChannel(p.channels[k]);
      assert q.channels[k := filled] == Partial(p, k + 1).channels;
    }
  }

  lemma {:induction false} ChannelsRun(st: LoadState, p: Pattern, k: nat, pf: string -> real)
    requires Shaped(p) && NotesPrintable(p) && k <= |p.channels|
    requires st.current == Some(Partial(p, k))
    ensures Consistent(st)
    ensures var r := Run(st, ChannelLines(p)[k..], pf);
      r.Ok? && r.state.mod == st.mod && r.state.current == Some(Partial(p, |p.channels|))
    decreases |p.channels| - k
  {
    var lines := ChannelLines(p)[k..];
    if k < |p.channels| {
      ChannelStep(st, p, k, pf);
      var next := LoadText(st, lines[0], pf).value;
      ChannelsRun(next, p, k + 1, pf);
      assert lines[1..] == ChannelLines(p)[k + 1..];
      RunCons(st, lines[0], lines[1..], next, pf);
      assert lines == [lines[0]] + lines[1..];
    } else {
      assert lines == [];
    }
  }

  lemma EndPatternText(st: LoadState, pf: string -> real)
    requires Consistent(st) && st.current.Some?
    ensures LoadText(st, "ENDPATTERN", pf) ==
      Some(st.(mod := st.mod.(patterns := st.mod.patterns + [st.current.value]), current := None))
  {
    assert Word("ENDPATTERN");
    assert Unwords(["ENDPATTERN"]) == "ENDPATTERN";
    CommandText(["ENDPATTERN"]);
    EndPatternLine(st, ["ENDPATTERN"], pf);
  }

  /** A blank line changes nothing. */
  lemma EmptyText(st: LoadState, pf: string -> real)
    requires Consistent(st)
    ensures LoadText(st, "", pf) == Some(st)
  {
  }

  /** The header line of a saved pattern opens it, with every cell a rest. */
  lemma PatternHeader(st: LoadState, p: Pattern, pf: string -> real)
    requires Shaped(p) && Consistent(st)
    ensures var r := LoadText(st, PatternText(p)[0], pf);
      r.Some? && r.value.mod == st.mod && r.value.current == Some(Partial(p, 0))
  {
    var header := ["PATTERN", FormatInt(p.rows), FormatInt(|p.channels|)];
    FormatIntWord(p.rows);
    FormatIntWord(|p.channels|);
    assert Word("PATTERN");
    CommandText(header);
    AtoiFormatInt(p.rows);
    AtoiFormatInt(|p.channels|);
    if |p.channels| > 0 {
      assert |p.channels[0]| == p.rows;
    }
    assert NewPattern(p.rows, |p.channels|).value.channels == Partial(p, 0).channels;
    assert LoadText(st, PatternText(p)[0], pf) == LoadLine(st, header, pf);
  }

  /** The lines of one saved pattern reload as that pattern, normalised. */
  lemma PatternRun(st: LoadState, p: Pattern, pf: string -> real)
    requires st.current.None? && Shaped(p) && NotesPrintable(p)
    ensures Consistent(st)
    ensures var r := Run(st, PatternText(p), pf);
      r.Ok? && r.state.current.None? && r.state.mod == st.mod.(patterns := st.mod.patterns + [Normal(p)])
  {
    var text := PatternText(p);
    var b, e := ChannelLines(p), ["ENDPATTERN", ""];
    assert text == [text[0]] + (b + e);
    PatternHeader(st, p, pf);
    var st1 := LoadText(st, text[0], pf).value;
    RunCons(st, text[0], b + e, st1, pf);
    RunAppend(st1, b, e, pf);
    ChannelsRun(st1, p, 0, pf);
    assert b[0..] == b;
    var st2 := Run(st1, b, pf).state;
    assert Partial(p, |p.channels|) == Normal(p);
    EndPatternText(st2, pf);
    var st3 := st2.(mod := st2.mod.(patterns := st2.mod.patterns + [Normal(p)]), current := None);
    RunCons(st2, "ENDPATTERN", [""], st3, pf);
    EmptyText(st3, pf);
    RunCons(st3, "", [], st3, pf);
  }

  lemma {:induction false} PatternsRun(st: LoadState, ps: seq<Pattern>, pf: string -> real)
    requires st.current.None?
    requires forall i :: 0 <= i < |ps| ==> Shaped(ps[i]) && NotesPrintable(ps[i])
    ensures Consistent(st)
    ensures forall i :: 0 <= i < |ps| ==> Printable(ps[i])
    ensures var r := Run(st, PatternsText(ps), pf);
      r.Ok? && r.state.current.None? &&
      r.state.mod == st.mod.(patterns := st.mod.patterns + Normals(ps))
    decreases |ps|
  {
    assert forall i :: 0 <= i < |ps| ==> Printable(ps[i]);
    if ps == [] {
      assert st.mod.patterns + [] == st.mod.patterns;
    } else {
      var a, b := PatternText(ps[0]), PatternsText(ps[1..]);
      PatternRun(st, ps[0], pf);
      var st1 := Run(st, a, pf).state;
      PatternsRun(st1, ps[1..], pf);
      RunChain(st, a, b, st1, pf);
      assert PatternsText(ps) == a + b;
      NormalsCons(st.mod.patterns, ps);
    }
  }

  /** An instrument line starts with its command and a space. */
  lemma InstrumentTextSplit(inst: Instrument, ff: real -> string, order: map<string, string> -> seq<(string, string)>)
    ensures var cmd := if inst.isFM then "FMINSTRUMENT" else "INSTRUMENT";
      Word(cmd) && cmd[0] != '#' &&
      exists rest :: InstrumentText(inst, ff, order) == cmd + " " + rest
  {
    if inst.isFM {
      var kv := order(inst.fmParams);
      var ts := ["FMINSTRUMENT", inst.name, inst.fmPreset] + seq(|kv|, i requires 0 <= i < |kv| => kv[i].0 + "=" + kv[i].1);
      assert InstrumentText(inst, ff, order) == "FMINSTRUMENT" + " " + Unwords(ts[1..]);
      assert Word("FMINSTRUMENT");
    } else {
      var ts := ["INSTRUMENT", inst.name, WaveTypeToString(inst.waveType),
                 ff(inst.attack), ff(inst.decay), ff(inst.sustain), ff(inst.release)];
      assert InstrumentText(inst, ff, order) == "INSTRUMENT" + " " + Unwords(ts[1..]);
      assert Word("INSTRUMENT");
    }
  }

  /** One saved instrument line adds an instrument and changes nothing else. */
  lemma InstrumentStep(st: LoadState, inst: Instrument, ff: real -> string,
                       order: map<string, string> -> seq<(string, string)>, pf: string -> real)
    requires Consistent(st)
    ensures var r := LoadText(st, InstrumentText(inst, ff, order), pf);
      r.Some? && r.value.current == st.current && r.value.mod.(instruments := st.mod.instruments) == st.mod
  {
    InstrumentTextSplit(inst, ff, order);
    var cmd := if inst.isFM then "FMINSTRUMENT" else "INSTRUMENT";
    var rest :| InstrumentText(inst, ff, order) == cmd + " " + rest;
    CommandLine(cmd, rest);
    InstrumentLines(st, [cmd] + Fields(rest), pf);
  }

  lemma InstrumentsTextCons(insts: seq<Instrument>, ff: real -> string, order: map<string, string> -> seq<(string, string)>)
    requires insts != []
    ensures InstrumentsText(insts, ff, order) == [InstrumentText(insts[0], ff, order)] + InstrumentsText(insts[1..], ff, order)
  {
  }

  lemma {:induction false} InstrumentsRun(st: LoadState, insts: seq<Instrument>, ff: real -> string,
                                          order: map<string, string> -> seq<(string, string)>, pf: string -> real)
    requires Consistent(st)
    ensures var r := Run(st, InstrumentsText(insts, ff, order), pf);
      r.Ok? && r.state.current == st.current && r.state.mod.(instruments := st.mod.instruments) == st.mod
    decreases |insts|
  {
    var text := InstrumentsText(insts, ff, order);
    if insts != [] {
      var line := InstrumentText(insts[0], ff, order);
      var rest := InstrumentsText(insts[1..], ff, order);
      InstrumentsTextCons(insts, ff, order);
      InstrumentStep(st, insts[0], ff, order, pf);
      var st1 := LoadText(st, line, pf).value;
      InstrumentsRun(st1, insts[1..], ff, order, pf);
      RunCons(st, line, rest, st1, pf);
    } else {
      assert text == [];
    }
  }

  /** The comment line `SaveVTM` starts with is skipped. */
  lemma BannerSkipped(st: LoadState, pf: string -> real)
    requires Consistent(st)
    ensures LoadText(st, "#" + " VESAsterizer Tracker Module", pf) == Some(st)
  {
    CommentText(st, " VESAsterizer Tracker Module", pf);
  }

  /** A line that starts with `#` is skipped. */
  lemma CommentText(st: LoadState, rest: string, pf: string -> real)
    requires Consistent(st)
    ensures LoadText(st, "#" + rest, pf) == Some(st)
  {
    CommentLine(st, "", rest, pf);
    assert "" + "#" + rest == "#" + rest;
  }

  lemma TitleText(st: LoadState, title: string, pf: string -> real)
    requires Consistent(st)
    ensures LoadText(st, "TITLE" + " " + title, pf) ==
      Some(if Fields(title) == [] then st else st.(mod := st.mod.(title := Unwords(Fields(title)))))
  {
    assert Word("TITLE");
    CommandLine("TITLE", title);
    assert (["TITLE"] + Fields(title))[1..] == Fields(title);
  }

  lemma TempoText(st: LoadState, tempo: int, pf: string -> real)
    requires Consistent(st)
    ensures LoadText(st, "TEMPO" + " " + FormatInt(tempo), pf) == Some(st.(mod := st.mod.(tempo := tempo)))
  {
    assert Word("TEMPO");
    CommandLine("TEMPO", FormatInt(tempo));
    FormatIntWord(tempo);
    FieldsOfWord(FormatInt(tempo));
    AtoiFormatInt(tempo);
    assert [("TEMPO")] + Fields(FormatInt(tempo)) == ["TEMPO", FormatInt(tempo)];
  }

  /** The first lines of a saved file: only the title and tempo change. */
  lemma HeaderRun(title: string, tempo: int, pf: string -> real)
    ensures var r := Run(Start, ["#" + " VESAsterizer Tracker Module", "TITLE" + " " + title, "TEMPO" + " " + FormatInt(tempo), ""], pf);
      r.Ok? && r.state.current.None? &&
      r.state.mod == StartModule.(title := Unwords(Fields(title)), tempo := tempo)
  {
    var l1, l2 := "TITLE" + " " + title, "TEMPO" + " " + FormatInt(tempo);
    var s1 := Start.(mod := StartModule.(title := Unwords(Fields(title))));
    var s2 := s1.(mod := s1.mod.(tempo := tempo));
    EmptyText(s2, pf);
    RunCons(s2, "", [], s2, pf);
    TempoText(s1, tempo, pf);
    RunCons(s1, l2, [""], s2, pf);
    TitleText(Start, title, pf);
    RunCons(Start, l1, [l2, ""], s1, pf);
    BannerSkipped(Start, pf);
    RunCons(Start, "#" + " VESAsterizer Tracker Module", [l1, l2, ""], Start, pf);
  }

  lemma SequenceLine(st: LoadState, nums: seq<string>, pf: string -> real)
    requires Consistent(st)
    ensures LoadLine(st, ["SEQUENCE"] + nums, pf) ==
      Some(st.(mod := st.mod.(sequence := st.mod.sequence + SequenceNumbers(nums))))
  {
    assert (["SEQUENCE"] + nums)[1..] == nums;
  }

  /** The last line of a saved file sets the sequence. */
  lemma SequenceRun(st: LoadState, sequence: seq<int>, pf: string -> real)
    requires Consistent(st) && st.mod.sequence == []
    ensures var r := Run(st, [SequenceText(sequence)], pf);
      r.Ok? && r.state.mod == st.mod.(sequence := sequence) && r.state.current == st.current
  {
    SequenceTextLoads(st, sequence, pf);
    assert st.mod.sequence + sequence == sequence;
    var st1 := st.(mod := st.mod.(sequence := sequence));
    RunCons(st, SequenceText(sequence), [], st1, pf);
  }

  /** The printed entries are words, and read back as the entries. */
  lemma SequenceWordsParse(sequence: seq<int>)
    ensures forall i :: 0 <= i < |sequence| ==> Word(SequenceWords(sequence)[i])
    ensures SequenceNumbers(SequenceWords(sequence)) == sequence
  {
    var nums := SequenceWords(sequence);
    forall i | 0 <= i < |nums| ensures Word(nums[i]) && Atoi(nums[i]) == sequence[i] {
      FormatIntWord(sequence[i]);
      AtoiFormatInt(sequence[i]);
    }
  }

  /** The line of the sequence appends its entries to the module's sequence. */
  lemma SequenceTextLoads(st: LoadState, sequence: seq<int>, pf: string -> real)
    requires Consistent(st)
    ensures LoadText(st, SequenceText(sequence), pf) == Some(st.(mod := st.mod.(sequence := st.mod.sequence + sequence)))
  {
    var nums := SequenceWords(sequence);
    SequenceWordsParse(sequence);
    assert Word("SEQUENCE");
    var parts := ["SEQUENCE"] + nums;
    CommandText(parts);
    SequenceLine(st, nums, pf);
  }

  /** Saving a module and loading the file back recovers its patterns (each
      cell reduced to its note, negative notes to rests), its sequence and its
      tempo; the title comes back with its white space collapsed. This holds
      when every channel has one cell per row, every note is below 108
      (`TopNoteDoesNotRoundTrip` shows 108 lost) and every written line reads
      back as one line (`NewlineSplitsLine` shows a '\n' inside a string
      breaking it). */
  lemma SaveThenLoad(m: TrackerModule, ff: real -> string, order: map<string, string> -> seq<(string, string)>, pf: string -> real)
    requires forall i :: 0 <= i < |m.patterns| ==>
      Shaped(m.patterns[i]) && Printable(m.patterns[i]) && NotesPrintable(m.patterns[i])
    requires forall k :: 0 <= k < |SaveText(m, ff, order)| ==> Scannable(SaveText(m, ff, order)[k])
    ensures var r := LoadFile(JoinLines(SaveText(m, ff, order)), pf);
      r.Loaded? &&
      |r.mod.patterns| == |m.patterns| &&
      (forall i :: 0 <= i < |m.patterns| ==> r.mod.patterns[i] == Normal(m.patterns[i])) &&
      r.mod.sequence == m.sequence && r.mod.tempo == m.tempo && r.mod.ticksPerRow == 6 &&
      r.mod.title == Unwords(Fields(m.title))
  {
    ScanJoinLines(SaveText(m, ff, order));
    var h := ["#" + " VESAsterizer Tracker Module", "TITLE" + " " + m.title, "TEMPO" + " " + FormatInt(m.tempo), ""];
    var ins := InstrumentsText(m.instruments, ff, order);
    var pats := PatternsText(m.patterns);
    var last := [SequenceText(m.sequence)];
    assert SaveText(m, ff, order) == h + ins + [""] + pats + last;
    HeaderRun(m.title, m.tempo, pf);
    var s1 := Run(Start, h, pf).state;
    InstrumentsRun(s1, m.instruments, ff, order, pf);
    RunThen(Start, h, ins, pf);
    var s2 := Run(s1, ins, pf).state;
    EmptyText(s2, pf);
    RunCons(s2, "", [], s2, pf);
    RunThen(Start, h + ins, [""], pf);
    PatternsRun(s2, m.patterns, pf);
    RunThen(Start, h + ins + [""], pats, pf);
    var s3 := Run(s2, pats, pf).state;
    SequenceRun(s3, m.sequence, pf);
    RunThen(Start, h + ins + [""] + pats, last, pf);
  }
}
