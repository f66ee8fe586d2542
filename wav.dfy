/** The WAV file writer: the 44-byte header of the RIFF WAVE form (a PCM
    `fmt ` chunk and a `data` chunk, as laid out in the Multimedia File
    Formats chapter of the Multimedia Programming Interface and Data
    Specifications 1.0), little-endian 16-bit stereo samples, the two size
    fields patched when the file is closed, and the render loop that feeds
    the player's samples to the writer. The file is its sequence of bytes. */
module AudioWav {
  import opened GoMath
  import Tracker
  import AudioPlayer

  type Byte = b: int | 0 <= b < 256

  const Two16: int := 0x1_0000
  const Two32: int := 0x1_0000_0000

  // ---------------------------------------------------------------------------
  // Little-endian fields

  /** `binary.Write` of a `uint16`/`int16` in little-endian order: Go's
      conversion keeps the value modulo 2^16 (two's complement for `int16`). */
  function LE16(v: int): (bs: seq<Byte>)
    ensures |bs| == 2
  {
    var u := v % Two16;
    [u % 256, u / 256]
  }

  /** `binary.Write` of a `uint32` in little-endian order. The value is Go's
      `uint32(x)` of an `int`: `x` modulo 2^32, also when the 64-bit `int`
      arithmetic before it wrapped, since 2^32 divides 2^64. */
  function LE32(v: int): (bs: seq<Byte>)
    ensures |bs| == 4
  {
    var u := v % Two32;
    var u1 := u / 256;
    var u2 := u1 / 256;
    [u % 256, u1 % 256, u2 % 256, u2 / 256]
  }

  /** The unsigned 16-bit value stored at offset `i`. */
  function U16At(s: seq<Byte>, i: nat): int
    requires i + 2 <= |s|
  {
    s[i] as int + 256 * s[i + 1] as int
  }

  /** The unsigned 32-bit value stored at offset `i`. */
  function U32At(s: seq<Byte>, i: nat): int
    requires i + 4 <= |s|
  {
    s[i] as int + 256 * s[i + 1] as int + 65536 * s[i + 2] as int + 16777216 * s[i + 3] as int
  }

  /** A 16-bit pattern read as a two's complement `int16`. */
  function Int16Of(u: int): int
  {
    if u >= 32768 then u - Two16 else u
  }

  /** A 16-bit field reads back as the value modulo 2^16, and an `int16`
      reads back as itself. */
  lemma LE16Decodes(v: int)
    ensures U16At(LE16(v), 0) == v % Two16
    ensures -32768 <= v < 32768 ==> Int16Of(U16At(LE16(v), 0)) == v
  {
    var u := v % Two16;
    assert u == u % 256 + 256 * (u / 256);
  }

  /** A 32-bit field reads back as the value modulo 2^32. */
  lemma LE32Decodes(v: int)
    ensures U32At(LE32(v), 0) == v % Two32
  {
    var u := v % Two32;
    var u1 := u / 256;
    var u2 := u1 / 256;
    assert u == u % 256 + 256 * u1;
    assert u1 == u1 % 256 + 256 * u2;
    assert u2 == u2 % 256 + 256 * (u2 / 256);
  }

  /** The bytes of a four-letter chunk identifier. */
  function Tag(s: string): (bs: seq<Byte>)
    requires |s| == 4 && forall i :: 0 <= i < 4 ==> s[i] as int < 256
    ensures |bs| == 4 && forall i :: 0 <= i < 4 ==> bs[i] == s[i] as int
  {
    [s[0] as int, s[1] as int, s[2] as int, s[3] as int]
  }

  // ---------------------------------------------------------------------------
  // The header

  /** The body of the `fmt ` chunk: PCM (format tag 1), 2 channels, the rate,
      the byte rate, the block align and 16 bits a sample. */
  function PcmFormat(rate: int): (bs: seq<Byte>)
    ensures |bs| == 16
  {
    LE16(1) + LE16(2) + LE32(rate) + LE32(rate * 2 * 2) + LE16(4) + LE16(16)
  }

  /** The `fmt ` chunk: its tag, its size 16, its body. */
  function FmtChunk(rate: int): (bs: seq<Byte>)
    ensures |bs| == 24
  {
    Tag("fmt ") + LE32(16) + PcmFormat(rate)
  }

  /** `writeHeader` for `n` frames at the given rate: the RIFF tag and size,
      the form type, the `fmt ` chunk, and the `data` tag and size. */
  function Header(rate: int, n: int): (h: seq<Byte>)
    ensures |h| == 44
  {
    Tag("RIFF") + LE32(36 + n * 2 * 2) + Tag("WAVE") + FmtChunk(rate) + Tag("data") + LE32(n * 2 * 2)
  }

  lemma PcmLayout(rate: int)
    ensures var f := PcmFormat(rate);
      U16At(f, 0) == 1 && U16At(f, 2) == 2 && U32At(f, 4) == rate % Two32 &&
      U32At(f, 8) == (4 * rate) % Two32 && U16At(f, 12) == 4 && U16At(f, 14) == 16
  {
    LE16Decodes(1);
    LE16Decodes(2);
    LE32Decodes(rate);
    LE32Decodes(rate * 2 * 2);
    LE16Decodes(4);
    LE16Decodes(16);
  }

  lemma FmtLayout(rate: int)
    ensures var f := FmtChunk(rate);
      f[0..4] == Tag("fmt ") && U32At(f, 4) == 16 &&
      U16At(f, 8) == 1 && U16At(f, 10) == 2 && U32At(f, 12) == rate % Two32 &&
      U32At(f, 16) == (4 * rate) % Two32 && U16At(f, 20) == 4 && U16At(f, 22) == 16
  {
    PcmLayout(rate);
    LE32Decodes(16);
  }

  /** Every field of the header at its offset: the four tags, the RIFF size
      `36 + 4n` and the data size `4n` (both modulo 2^32), format tag 1 (PCM),
      2 channels, the rate, the byte rate `4·rate`, block align 4 and 16 bits
      a sample. */
  lemma HeaderLayout(rate: int, n: int)
    ensures var h := Header(rate, n);
      h[0..4] == Tag("RIFF") && U32At(h, 4) == (36 + 4 * n) % Two32 &&
      h[8..12] == Tag("WAVE") && h[12..16] == Tag("fmt ") && U32At(h, 16) == 16 &&
      U16At(h, 20) == 1 && U16At(h, 22) == 2 &&
      U32At(h, 24) == rate % Two32 && U32At(h, 28) == (4 * rate) % Two32 &&
      U16At(h, 32) == 4 && U16At(h, 34) == 16 &&
      h[36..40] == Tag("data") && U32At(h, 40) == (4 * n) % Two32
  {
    FmtLayout(rate);
    LE32Decodes(36 + n * 2 * 2);
    LE32Decodes(n * 2 * 2);
  }

  lemma ModMul4(x: int)
    ensures (4 * (x % Two32)) % Two32 == (4 * x) % Two32
  {
    var q := x / Two32;
    assert x == Two32 * q + x % Two32;
    assert 4 * x == Two32 * (4 * q) + 4 * (x % Two32);
  }

  /** The sizes agree with each other and with the format: the RIFF size is
      the data size plus 36, the byte rate is rate × channels × bytes a sample
      and the block align is channels × bytes a sample (all modulo 2^32). */
  lemma HeaderAgrees(rate: int, n: int)
    ensures var h := Header(rate, n);
      var channels, bytesPerSample := U16At(h, 22), U16At(h, 34) / 8;
      U32At(h, 4) == (U32At(h, 40) + 36) % Two32 &&
      U32At(h, 28) == (U32At(h, 24) * channels * bytesPerSample) % Two32 &&
      U16At(h, 32) == channels * bytesPerSample
  {
    var h := Header(rate, n);
    HeaderLayout(rate, n);
    FieldsAgree(U32At(h, 4), U32At(h, 40), U32At(h, 24), U32At(h, 28), rate, n);
  }

  /** The arithmetic of `HeaderAgrees`, on the decoded field values. */
  lemma FieldsAgree(riff: int, data: int, r: int, br: int, rate: int, n: int)
    requires riff == (36 + 4 * n) % Two32 && data == (4 * n) % Two32
    requires r == rate % Two32 && br == (4 * rate) % Two32
    ensures riff == (data + 36) % Two32 && br == (r * 2 * 2) % Two32
  {
    ModMul4(rate);
    var d := 4 * n;
    var q := d / Two32;
    assert d == Two32 * q + d % Two32;
    assert d + 36 == Two32 * q + (d % Two32 + 36);
  }

  /** The placeholder header, written before any frame, carries sizes 36 and 0. */
  lemma PlaceholderSizes(rate: int)
    ensures U32At(Header(rate, 0), 4) == 36 && U32At(Header(rate, 0), 40) == 0
  {
    HeaderLayout(rate, 0);
  }

  // ---------------------------------------------------------------------------
  // Samples

  /** Go's `int16(x * 32767.0)` is defined when the truncated product fits. */
  predicate Fits16(x: real)
  {
    -32768 <= Trunc(x * 32767.0) < 32768
  }

  /** The `int16` a sample is stored as. */
  function Quantize(x: real): int
  {
    Trunc(x * 32767.0)
  }

  /** `WriteSample`: the left then the right sample. */
  function FrameBytes(left: real, right: real): (bs: seq<Byte>)
    ensures |bs| == 4
  {
    LE16(Quantize(left)) + LE16(Quantize(right))
  }

  /** `math.Max(-1.0, math.Min(1.0, x))`. */
  function Clamp(x: real): (y: real)
    ensures -1.0 <= y <= 1.0
    ensures -1.0 <= x <= 1.0 ==> y == x
  {
    if x > 1.0 then 1.0 else if x < -1.0 then -1.0 else x
  }

  /** A clamped sample quantises into [-32767, 32767]. */
  lemma ClampedFits(x: real)
    ensures Fits16(Clamp(x)) && -32767 <= Quantize(Clamp(x)) <= 32767
  {
    var y := Clamp(x) * 32767.0;
    TruncBounds(y);
  }

  /** The bytes `RenderToWAV` writes for the player's samples: each clamped,
      then written as the same left and right value. */
  function SamplesBytes(xs: seq<real>): (bs: seq<Byte>)
    ensures |bs| == 4 * |xs|
  {
    if xs == [] then []
    else SamplesBytes(xs[..|xs| - 1]) + FrameBytes(Clamp(xs[|xs| - 1]), Clamp(xs[|xs| - 1]))
  }

  /** Frame `j` of the written samples: two equal `int16` values in
      [-32767, 32767], the `j`-th sample clamped and quantised. */
  lemma {:induction false} SamplesLayout(xs: seq<real>, j: nat)
    requires j < |xs|
    ensures var bs := SamplesBytes(xs);
      var left, right := Int16Of(U16At(bs, 4 * j)), Int16Of(U16At(bs, 4 * j + 2));
      left == right == Quantize(Clamp(xs[j])) && -32767 <= left <= 32767
    decreases |xs|
  {
    var init := xs[..|xs| - 1];
    var q := Quantize(Clamp(xs[|xs| - 1]));
    var bs := SamplesBytes(xs);
    if j < |xs| - 1 {
      SamplesLayout(init, j);
      assert init[j] == xs[j];
    } else {
      ClampedFits(xs[j]);
      LE16Decodes(q);
    }
  }

  // ---------------------------------------------------------------------------
  // Patching a file in place

  function Zeros(k: nat): (z: seq<Byte>)
    ensures |z| == k && forall i :: 0 <= i < k ==> z[i] == 0
  {
    seq(k, _ => 0)
  }

  /** Writing `bs` at offset `off`: the bytes there are replaced, the file
      grows when the write runs past its end, and a gap before the offset
      reads as zeros. */
  function Overwrite(file: seq<Byte>, off: nat, bs: seq<Byte>): (r: seq<Byte>)
    requires |bs| > 0
    ensures |r| == if off + |bs| > |file| then off + |bs| else |file|
    ensures forall i :: 0 <= i < |r| ==>
      r[i] == if off <= i < off + |bs| then bs[i - off] else if i < |file| then file[i] else 0
  {
    if off <= |file| then
      file[..off] + bs + (if off + |bs| < |file| then file[off + |bs|..] else [])
    else
      file + Zeros(off - |file|) + bs
  }

  /** `Close`: the RIFF size at offset 4 and the data size at offset 40, for
      `n` frames. */
  function Finalized(file: seq<Byte>, n: int): seq<Byte>
  {
    Overwrite(Overwrite(file, 4, LE32(36 + n * 2 * 2)), 40, LE32(n * 2 * 2))
  }

  /** On a file that holds a header, `Close` changes only offsets 4..7 and
      40..43, to the sizes for `n` frames. */
  lemma CloseOnlyPatchesSizes(file: seq<Byte>, n: int)
    requires |file| >= 44
    ensures var f := Finalized(file, n);
      |f| == |file| && f[4..8] == LE32(36 + 4 * n) && f[40..44] == LE32(4 * n) &&
      forall i :: 0 <= i < |file| && !(4 <= i < 8) && !(40 <= i < 44) ==> f[i] == file[i]
  {
    var g := Overwrite(file, 4, LE32(36 + n * 2 * 2));
    var f := Overwrite(g, 40, LE32(n * 2 * 2));
    assert f[4..8] == LE32(36 + 4 * n);
  }

  /** Closing a file made of a header for `k` frames and `n` frames of
      samples leaves the header for `n` frames. */
  lemma CloseFinalizesHeader(rate: int, k: int, n: int, body: seq<Byte>)
    requires |body| == 4 * n
    ensures Finalized(Header(rate, k) + body, n) == Header(rate, n) + body
  {
    var file := Header(rate, k) + body;
    CloseOnlyPatchesSizes(file, n);
    var f := Finalized(file, n);
    var want := Header(rate, n) + body;
    forall i | 0 <= i < |f|
      ensures f[i] == want[i]
    {
      if 4 <= i < 8 {
        assert f[i] == f[4..8][i - 4];
      } else if 40 <= i < 44 {
        assert f[i] == f[40..44][i - 40];
      }
    }
  }

  // ---------------------------------------------------------------------------
  // The writer

  class WAVWriter {
    /** The bytes of the file. Writes go to its end; only `Close` seeks. */
    var data: seq<Byte>
    var sampleRate: int
    var numSamples: int
    var closed: bool

    /** `NewWAVWriter` once `os.Create` has given an empty file. */
    constructor (sampleRate: int)
      ensures data == [] && this.sampleRate == sampleRate && numSamples == 0 && !closed
    {
      data, this.sampleRate, numSamples, closed := [], sampleRate, 0, false;
    }

    /** `writeHeader`: the thirteen fields in order, the sizes for the
        frames counted so far. On a closed file the first write fails. */
    method WriteHeader() returns (ok: bool)
      modifies this
      ensures ok == !old(closed) && closed == old(closed)
      ensures sampleRate == old(sampleRate) && numSamples == old(numSamples)
      ensures data == if ok then old(data) + Header(sampleRate, numSamples) else old(data)
    {
      if closed {
        return false;
      }
      data := data + Header(sampleRate, numSamples);
      return true;
    }

    /** `WriteSample`: both samples as `int16`, then one more frame counted. */
    method WriteSample(left: real, right: real) returns (ok: bool)
      requires Fits16(left) && Fits16(right)
      modifies this
      ensures ok == !old(closed) && closed == old(closed) && sampleRate == old(sampleRate)
      ensures ok ==> data == old(data) + FrameBytes(left, right) && numSamples == old(numSamples) + 1
      ensures !ok ==> data == old(data) && numSamples == old(numSamples)
    {
      if closed {
        return false;
      }
      var leftSample := Quantize(left);
      var rightSample := Quantize(right);
      data := data + LE16(leftSample);
      data := data + LE16(rightSample);
      numSamples := numSamples + 1;
      return true;
    }

    /** `Close`: both size fields rewritten for the frames written, then the
        file closed. On a closed file the first seek fails. */
    method Close() returns (ok: bool)
      modifies this
      ensures closed && ok == !old(closed)
      ensures numSamples == old(numSamples) && sampleRate == old(sampleRate)
      ensures data == if ok then Finalized(old(data), numSamples) else old(data)
    {
      if closed {
        return false;
      }
      data := Overwrite(data, 4, LE32(36 + numSamples * 2 * 2));
      data := Overwrite(data, 40, LE32(numSamples * 2 * 2));
      closed := true;
      return true;
    }
  }

  // ---------------------------------------------------------------------------
  // Rendering a module

  /** The first `k` values of `f`. */
  function Prefix(f: int -> real, k: nat): (xs: seq<real>)
    ensures |xs| == k && forall j :: 0 <= j < k ==> xs[j] == f(j)
  {
    seq(k, f)
  }

  lemma PrefixSnoc(f: int -> real, k: nat)
    ensures Prefix(f, k + 1) == Prefix(f, k) + [f(k)]
  {
  }

  /** The sample of the `j`-th call of `Next`. */
  function SampleOf(lib: Libm, p: AudioPlayer.PlayerState): int -> real
  {
    j => if 0 <= j && p.Valid() && AudioPlayer.Playable(p.mod) then AudioPlayer.Played(lib, p, j).Sample(lib) else 0.0
  }

  /** The samples of the first `k` calls of `Next`. */
  function Rendered(lib: Libm, p: AudioPlayer.PlayerState, k: nat): (xs: seq<real>)
    ensures |xs| == k
  {
    Prefix(SampleOf(lib, p), k)
  }

  /** Sample `j` is the sample of the `j`-th call of `Next`. */
  lemma RenderedSample(lib: Libm, p: AudioPlayer.PlayerState, k: nat, j: nat)
    requires p.Valid() && AudioPlayer.Playable(p.mod) && j < k
    ensures Rendered(lib, p, k)[j] == AudioPlayer.Played(lib, p, j).Sample(lib)
  {
  }

  /** The modules `RenderToWAV` is proved on: a non-zero rate and tempo, and
      a non-empty sequence whose every entry names a pattern. On an empty
      sequence, or from an entry that names no pattern, the player never
      reports done (`StuckNeverFinishes`) and Go's loop never ends; a negative
      entry makes Go panic. */
  predicate Renders(m: Tracker.TrackerModule, sampleRate: int)
  {
    sampleRate != 0 && m.tempo != 0 &&
    AudioPlayer.Playable(m) && |m.sequence| > 0 && AudioPlayer.PlaysFrom(m, 0)
  }

  /** The frames of a rendered module: the calls a row lasts times the rows
      the sequence lasts, each at least one. */
  function FrameCount(m: Tracker.TrackerModule, sampleRate: int): (n: nat)
    requires Renders(m, sampleRate)
    ensures n == AudioPlayer.RowLength(AudioPlayer.NewPlayer(m, sampleRate as real).samplesPerRow) * AudioPlayer.TotalRows(m)
  {
    AudioPlayer.RowsFromPositive(m, 0);
    AudioPlayer.RowLength(AudioPlayer.SamplesPerRow(m.tempo, sampleRate as real)) * AudioPlayer.TotalRows(m)
  }

  /** `RenderToWAV` with the file system replaced by the returned bytes: the
      placeholder header, one clamped frame per call of `Next` until the
      player is done, then the sizes patched. */
  method RenderToWAV(lib: Libm, m: Tracker.TrackerModule, sampleRate: int) returns (file: seq<Byte>)
    requires Renders(m, sampleRate)
    ensures file == Header(sampleRate, FrameCount(m, sampleRate))
      + SamplesBytes(Rendered(lib, AudioPlayer.NewPlayer(m, sampleRate as real), FrameCount(m, sampleRate)))
  {
    var player := new AudioPlayer.Player(m, sampleRate as real);
    ghost var p := player.Model();
    AudioPlayer.PlayerFinishesExactly(lib, m, sampleRate as real);
    file := WriteSong(lib, player, sampleRate, p, FrameCount(m, sampleRate));
  }

  /** The writer's part of `RenderToWAV`, for a player that is done first
      after `n` calls of `Next`. */
  method WriteSong(lib: Libm, player: AudioPlayer.Player, sampleRate: int, ghost p: AudioPlayer.PlayerState, ghost n: nat)
      returns (file: seq<Byte>)
    requires player.Model() == p && p.Valid() && AudioPlayer.Playable(p.mod)
    requires AudioPlayer.Played(lib, p, n).cursor.done
    requires forall j :: 0 <= j < n ==> !AudioPlayer.Played(lib, p, j).cursor.done
    modifies player
    ensures file == Header(sampleRate, n) + SamplesBytes(Rendered(lib, p, n))
  {
    var w := new WAVWriter(sampleRate);
    var ok := w.WriteHeader();
    ghost var h := w.data;
    assert h == Header(sampleRate, 0);
    ghost var xs := RenderFrames(lib, player, w, p, n);
    ghost var body := SamplesBytes(xs);
    assert w.data == h + body && w.numSamples == n;
    ok := w.Close();
    assert w.data == Finalized(h + body, n);
    CloseFinalizesHeader(sampleRate, 0, n, body);
    file := w.data;
  }

  /** The loop of `RenderToWAV`: from a player that is done first after `n`
      calls, one frame written per call; `xs` are the samples. */
  method RenderFrames(lib: Libm, player: AudioPlayer.Player, w: WAVWriter, ghost p: AudioPlayer.PlayerState, ghost n: nat)
      returns (ghost xs: seq<real>)
    requires player.Model() == p && p.Valid() && AudioPlayer.Playable(p.mod)
    requires AudioPlayer.Played(lib, p, n).cursor.done
    requires forall j :: 0 <= j < n ==> !AudioPlayer.Played(lib, p, j).cursor.done
    requires w.numSamples == 0 && !w.closed
    modifies player, w
    ensures xs == Rendered(lib, p, n) && |xs| == n
    ensures w.data == old(w.data) + SamplesBytes(xs)
    ensures w.numSamples == n && !w.closed && w.sampleRate == old(w.sampleRate)
  {
    ghost var k: nat := 0;
    ghost var h := w.data;
    xs := [];
    var done := player.IsDone();
    while !done
      invariant k <= n
      invariant player.Model() == AudioPlayer.Played(lib, p, k)
      invariant done == player.done
      invariant xs == Rendered(lib, p, k)
      invariant w.data == h + SamplesBytes(xs)
      invariant w.numSamples == k && !w.closed && w.sampleRate == old(w.sampleRate)
      decreases n - k
    {
      assert k < n;
      xs := RenderFrame(lib, player, w, p, k, h, xs);
      k := k + 1;
      done := player.IsDone();
    }
  }

  /** One turn of the loop: the player's next sample, clamped, written to
      both channels. */
  method RenderFrame(lib: Libm, player: AudioPlayer.Player, w: WAVWriter, ghost p: AudioPlayer.PlayerState,
                     ghost k: nat, ghost h: seq<Byte>, ghost xs: seq<real>)
      returns (ghost ys: seq<real>)
    requires p.Valid() && AudioPlayer.Playable(p.mod) && player.Model() == AudioPlayer.Played(lib, p, k)
    requires !player.done && xs == Rendered(lib, p, k) && w.data == h + SamplesBytes(xs) && !w.closed
    modifies player, w
    ensures player.Model() == AudioPlayer.Played(lib, p, k + 1) && ys == Rendered(lib, p, k + 1)
    ensures w.data == h + SamplesBytes(ys)
    ensures w.numSamples == old(w.numSamples) + 1 && !w.closed && w.sampleRate == old(w.sampleRate)
  {
    var sample := player.Next(lib);
    PlayedNext(lib, p, k);
    RenderedSnoc(lib, p, k);
    SamplesBytesSnoc(h, xs, sample);
    var clamped := Clamp(sample);
    ClampedFits(sample);
    var ok := w.WriteSample(clamped, clamped);
    ys := xs + [sample];
  }

  lemma PlayedNext(lib: Libm, p: AudioPlayer.PlayerState, k: nat)
    requires p.Valid() && AudioPlayer.Playable(p.mod)
    ensures AudioPlayer.Played(lib, p, k + 1) == AudioPlayer.Played(lib, p, k).Next(lib)
  {
  }

  lemma RenderedSnoc(lib: Libm, p: AudioPlayer.PlayerState, k: nat)
    requires p.Valid() && AudioPlayer.Playable(p.mod)
    ensures Rendered(lib, p, k + 1) == Rendered(lib, p, k) + [AudioPlayer.Played(lib, p, k).Sample(lib)]
  {
    PrefixSnoc(SampleOf(lib, p), k);
  }

  /** One more sample after a header is one more clamped frame at the end. */
  lemma SamplesBytesSnoc(h: seq<Byte>, xs: seq<real>, x: real)
    ensures h + SamplesBytes(xs + [x]) == (h + SamplesBytes(xs)) + FrameBytes(Clamp(x), Clamp(x))
  {
    assert (xs + [x])[..|xs|] == xs;
  }

  lemma U16Shift(h: seq<Byte>, body: seq<Byte>, i: nat)
    requires i + 2 <= |body|
    ensures U16At(h + body, |h| + i) == U16At(body, i)
  {
    assert (h + body)[|h| + i] == body[i] && (h + body)[|h| + i + 1] == body[i + 1];
  }

  /** A written file for samples `xs`: `44 + 4n` bytes for `n` samples, whose
      size fields count the `n` frames and whose frame `j` holds sample `j`,
      clamped, quantised and written to both channels. */
  lemma FileLayout(rate: int, xs: seq<real>, j: nat)
    ensures var n := |xs|;
      var file := Header(rate, n) + SamplesBytes(xs);
      |file| == 44 + 4 * n &&
      U32At(file, 4) == (36 + 4 * n) % Two32 && U32At(file, 40) == (4 * n) % Two32 &&
      (j < n ==>
        var left, right := Int16Of(U16At(file, 44 + 4 * j)), Int16Of(U16At(file, 46 + 4 * j));
        left == right == Quantize(Clamp(xs[j])) && -32767 <= left <= 32767)
  {
    var h := Header(rate, |xs|);
    var body := SamplesBytes(xs);
    HeaderLayout(rate, |xs|);
    assert (h + body)[..44] == h;
    if j < |xs| {
      U16Shift(h, body, 4 * j);
      U16Shift(h, body, 4 * j + 2);
      SamplesLayout(xs, j);
    }
  }
}
