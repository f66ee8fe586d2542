/** Note names: the three-character spelling ("C#4", "A-3") of a semitone index,
    with semitone 0 the C of octave 0 (synth/note.go). Go indexes strings by
    byte, so the parser reads the UTF-8 encoding of its argument. */
module SynthNote {
  import opened GoMath

  type Byte = b: int | 0 <= b < 256

  /** `NoteToFrequency`: 440 Hz at note 57 (A4), equal temperament, with
      `math.Pow` left open. */
  function NoteToFrequency(lib: Libm, note: int): real
  {
    440.0 * lib.pow(2.0, (note - 57) as real / 12.0)
  }

  // ---------------------------------------------------------------------------
  // UTF-8, the byte view Go's `len` and `s[i]` take of a string

  function Utf8(c: char): (b: seq<Byte>)
    ensures 1 <= |b| <= 4
    ensures (c as int < 0x80) == (b == [c as int])
    ensures c as int >= 0x80 ==> forall i :: 0 <= i < |b| ==> b[i] >= 0x80
    ensures c as int >= 0x80 ==> |b| >= 2 && 0x80 <= b[1] < 0xC0 && b[0] >= 0xC0
  {
    var x := c as int;
    if x < 0x80 then [x]
    else if x < 0x800 then [0xC0 + x / 0x40, 0x80 + x % 0x40]
    else if x < 0x1_0000 then [0xE0 + x / 0x1000, 0x80 + (x / 0x40) % 0x40, 0x80 + x % 0x40]
    else [0xF0 + x / 0x4_0000, 0x80 + (x / 0x1000) % 0x40, 0x80 + (x / 0x40) % 0x40, 0x80 + x % 0x40]
  }

  function Utf8Bytes(s: string): (b: seq<Byte>)
    ensures |b| >= |s|
  {
    if s == [] then [] else Utf8(s[0]) + Utf8Bytes(s[1..])
  }

  predicate IsAscii(s: string)
  {
    forall i :: 0 <= i < |s| ==> s[i] as int < 0x80
  }

  lemma {:induction false} AsciiBytes(s: string)
    requires IsAscii(s)
    ensures |Utf8Bytes(s)| == |s|
    ensures forall i :: 0 <= i < |s| ==> Utf8Bytes(s)[i] == s[i] as int
  {
    if s != [] {
      assert IsAscii(s[1..]) by {
        forall i | 0 <= i < |s[1..]| ensures s[1..][i] as int < 0x80 {
          assert s[1..][i] == s[i + 1];
        }
      }
      AsciiBytes(s[1..]);
    }
  }

  lemma {:induction false} Utf8BytesAppend(s: string, t: string)
    ensures Utf8Bytes(s + t) == Utf8Bytes(s) + Utf8Bytes(t)
  {
    if s == [] {
      assert s + t == t;
    } else {
      assert (s + t)[1..] == s[1..] + t;
      Utf8BytesAppend(s[1..], t);
    }
  }

  // ---------------------------------------------------------------------------
  // ParseNote

  /** The keys of `noteMap`: the bytes of C D E F G A B. */
  predicate IsNoteLetter(b: int)
  {
    b == 'C' as int || b == 'D' as int || b == 'E' as int || b == 'F' as int ||
    b == 'G' as int || b == 'A' as int || b == 'B' as int
  }

  /** The values of `noteMap`: the semitone of each natural within the octave. */
  function LetterValue(b: int): (v: int)
    requires IsNoteLetter(b)
    ensures 0 <= v <= 11
  {
    if b == 'C' as int then 0
    else if b == 'D' as int then 2
    else if b == 'E' as int then 4
    else if b == 'F' as int then 5
    else if b == 'G' as int then 7
    else if b == 'A' as int then 9
    else 11
  }

  /** `ParseNote` on the bytes of its argument. `noteStr[2] - '0'` is a
      subtraction of bytes, so it wraps modulo 256 before `int(...)` widens it. */
  function ParseNoteBytes(b: seq<Byte>): (n: int)
    ensures n == -1 || 0 <= n <= 108
  {
    if |b| < 3 then -1
    else
      var sharp := b[1] == '#' as int;
      var octave := (b[2] - '0' as int) % 256;
      if octave < 0 || octave > 8 then -1
      else if !IsNoteLetter(b[0]) then -1
      else octave * 12 + LetterValue(b[0]) + (if sharp then 1 else 0)
  }

  /** Parses "C-4", "C#5", "A-3"; -1 for anything that is not a note. */
  function ParseNote(s: string): (n: int)
    ensures n == -1 || 0 <= n <= 108
  {
    ParseNoteBytes(Utf8Bytes(s))
  }

  /** A string of fewer than three characters is never a note, including one
      whose UTF-8 encoding reaches three bytes: its third byte is then a UTF-8
      continuation or lead byte, never a digit. */
  lemma ShortStringIsNotANote(s: string)
    requires |s| < 3
    ensures ParseNote(s) == -1
  {
    var b := Utf8Bytes(s);
    if |b| >= 3 {
      assert s != [];
      assert b == Utf8(s[0]) + Utf8Bytes(s[1..]);
      if s[0] as int < 0x80 {
        var t := s[1..];
        assert t != [];
        assert Utf8Bytes(t) == Utf8(t[0]) + Utf8Bytes(t[1..]);
        assert b == [s[0] as int] + Utf8(t[0]) + Utf8Bytes(t[1..]);
        assert t[0] as int >= 0x80;
        assert b[2] == Utf8(t[0])[1];
      } else {
        assert b[0] == Utf8(s[0])[0];
      }
    }
  }

  /** Only the first three bytes are read: whatever follows three characters
      does not change the result. */
  lemma OnlyFirstThreeRead(s: string, t: string)
    requires |s| >= 3
    ensures ParseNote(s + t) == ParseNote(s)
  {
    Utf8BytesAppend(s, t);
    var b := Utf8Bytes(s);
    assert (b + Utf8Bytes(t))[..3] == b[..3];
  }

  /** On ASCII text, the parse in terms of characters: the first must be a
      note letter, the third a digit 0..8 (a character below '0' wraps around
      and is rejected like one above '8'), and the second adds a semitone
      exactly when it is '#'. */
  lemma ParseNoteAscii(s: string)
    requires IsAscii(s)
    ensures ParseNote(s) != -1 <==>
      |s| >= 3 && IsNoteLetter(s[0] as int) && '0' <= s[2] <= '8'
    ensures ParseNote(s) != -1 ==>
      ParseNote(s) == (s[2] as int - '0' as int) * 12 + LetterValue(s[0] as int)
                      + (if s[1] == '#' then 1 else 0)
  {
    AsciiBytes(s);
    if |s| >= 3 {
      var b := Utf8Bytes(s);
      assert b[0] == s[0] as int && b[1] == s[1] as int && b[2] == s[2] as int;
      if s[2] < '0' {
        assert (b[2] - '0' as int) % 256 > 8;
      }
    }
  }

  // ---------------------------------------------------------------------------
  // FormatNote

  const NoteNames: seq<string> :=
    ["C-", "C#", "D-", "D#", "E-", "F-", "F#", "G-", "G#", "A-", "A#", "B-"]

  /** Go's `rune(x)` conversion of an int: the low 32 bits, as a signed value. */
  function Int32(x: int): (r: int)
    ensures -0x8000_0000 <= r < 0x8000_0000
    ensures -0x8000_0000 <= x < 0x8000_0000 ==> r == x
  {
    (x + 0x8000_0000) % 0x1_0000_0000 - 0x8000_0000
  }

  /** Go's `string(r)` for a rune: its character, or U+FFFD when `r` is not a
      Unicode scalar value. */
  function RuneChar(r: int): char
  {
    if 0 <= r < 0xD800 || 0xE000 <= r < 0x11_0000 then r as char else '�'
  }

  /** `FormatNote`: "---" for a negative note, otherwise the name within the
      octave followed by the character `'0' + octave`. */
  function FormatNote(note: int): (s: string)
    ensures |s| == 3
    ensures note < 0 ==> s == "---"
    ensures 0 <= note ==> s[..2] == NoteNames[note % 12]
  {
    if note < 0 then "---"
    else NoteNames[note % 12] + [RuneChar(Int32('0' as int + note / 12))]
  }

  /** The two characters of each name in the table: a note letter, then '#'
      exactly for the five sharps, and together they give back the index. */
  lemma NoteNameValue(k: int)
    requires 0 <= k < 12
    ensures |NoteNames[k]| == 2 && IsNoteLetter(NoteNames[k][0] as int)
    ensures NoteNames[k][1] == '#' || NoteNames[k][1] == '-'
    ensures LetterValue(NoteNames[k][0] as int) + (if NoteNames[k][1] == '#' then 1 else 0) == k
  {
  }

  /** Round trip: every note of octaves 0..8 prints as three ASCII bytes that
      parse back to the same note. */
  lemma {:induction false} FormatThenParse(n: int)
    requires 0 <= n <= 107
    ensures |Utf8Bytes(FormatNote(n))| == 3
    ensures ParseNote(FormatNote(n)) == n
  {
    var s := FormatNote(n);
    var k := n % 12;
    NoteNameValue(k);
    assert s[0] == NoteNames[k][0] && s[1] == NoteNames[k][1];
    assert s[2] as int == '0' as int + n / 12;
    assert IsAscii(s) by {
      forall i | 0 <= i < 3 ensures s[i] as int < 0x80 {
        if i < 2 { assert s[i] == NoteNames[k][i]; }
      }
    }
    ParseNoteAscii(s);
    AsciiBytes(s);
  }

  /** The other direction, for canonical spellings: a table name followed by a
      digit 0..8 is printed back exactly as it was read. */
  lemma {:induction false} ParseThenFormat(s: string)
    requires |s| == 3 && s[..2] in NoteNames && '0' <= s[2] <= '8'
    ensures FormatNote(ParseNote(s)) == s
  {
    var k :| 0 <= k < 12 && NoteNames[k] == s[..2];
    NoteNameValue(k);
    assert s[0] == NoteNames[k][0] && s[1] == NoteNames[k][1];
    assert IsAscii(s) by {
      forall i | 0 <= i < 3 ensures s[i] as int < 0x80 {
        if i < 2 { assert s[i] == NoteNames[k][i]; }
      }
    }
    ParseNoteAscii(s);
    var n := ParseNote(s);
    var o := s[2] as int - '0' as int;
    assert n == o * 12 + k;
    assert n % 12 == k && n / 12 == o;
    assert FormatNote(n) == NoteNames[k] + [s[2]];
  }
}
