/** The demo audio's WAV export, `bufferToWavUrl` with `writeUTFBytes`
    (script.js:162-195): a canonical 44-byte RIFF/WAVE header ('fmt '
    chunk of 16 bytes, format tag 1 for PCM, 16 bits per sample, then the
    'data' chunk) followed by the samples, frame by frame and channel by
    channel, each clamped to [-1, 1] and written as a little-endian 16-bit
    integer. The DataView is an array of bytes written at a moving offset;
    creating the Blob and its URL is not modelled. */
module WavWriter {
  import opened PitchMath

  type Byte = x: int | 0 <= x < 256

  const HeaderSize: nat := 44

  /* ---------------------------------------------------------------------
     Encodings
     --------------------------------------------------------------------- */

  /** setUint16(…, v, true): v modulo 2^16, low byte first. */
  function U16LE(v: int): (bs: seq<Byte>)
    ensures |bs| == 2
  {
    var u := v % 0x1_0000;
    [u % 256, u / 256]
  }

  /** setUint32(…, v, true): v modulo 2^32, lowest byte first. */
  function U32LE(v: int): (bs: seq<Byte>)
    ensures |bs| == 4
  {
    var u := v % 0x1_0000_0000;
    [u % 256, (u / 256) % 256, (u / 0x1_0000) % 256, u / 0x100_0000]
  }

  /** writeUTFBytes: one byte per character, its code modulo 256. */
  function Ascii(s: string): (bs: seq<Byte>)
    ensures |bs| == |s|
    ensures forall i :: 0 <= i < |s| ==> bs[i] == s[i] as int % 256
  {
    seq(|s|, i requires 0 <= i < |s| => s[i] as int % 256)
  }

  function DecodeU16(bs: seq<Byte>, at: nat): int
    requires at + 2 <= |bs|
  {
    var b0: int, b1: int := bs[at], bs[at + 1];
    b0 + 256 * b1
  }

  function DecodeU32(bs: seq<Byte>, at: nat): int
    requires at + 4 <= |bs|
  {
    var b0: int, b1: int, b2: int, b3: int := bs[at], bs[at + 1], bs[at + 2], bs[at + 3];
    b0 + 256 * b1 + 0x1_0000 * b2 + 0x100_0000 * b3
  }

  /** A 16-bit two's-complement reading. */
  function DecodeI16(bs: seq<Byte>, at: nat): int
    requires at + 2 <= |bs|
  {
    var u := DecodeU16(bs, at);
    if u >= 0x8000 then u - 0x1_0000 else u
  }

  lemma U16RoundTrip(v: int)
    ensures DecodeU16(U16LE(v), 0) == v % 0x1_0000
  {
    var u := v % 0x1_0000;
    assert u == u % 256 + 256 * (u / 256);
  }

  lemma U32RoundTrip(v: int)
    ensures DecodeU32(U32LE(v), 0) == v % 0x1_0000_0000
  {
    var u := v % 0x1_0000_0000;
    var b0, b1, b2, b3 := u % 256, (u / 256) % 256, (u / 0x1_0000) % 256, u / 0x100_0000;
    assert u / 256 == b1 + 256 * (u / 0x1_0000);
    assert u / 0x1_0000 == b2 + 256 * b3;
    assert u == b0 + 256 * (u / 256);
  }

  /** The 16-bit code of one sample: clamped to [-1, 1], negative values
      scaled by 0x8000 and the others by 0x7FFF, truncated. */
  function SampleCode(x: real): (v: int)
    ensures -0x8000 <= v <= 0x7FFF
    ensures x >= 1.0 ==> v == 0x7FFF
    ensures x <= -1.0 ==> v == -0x8000
    ensures x == 0.0 ==> v == 0
    ensures (x < 0.0 ==> v <= 0) && (x >= 0.0 ==> v >= 0)
  {
    var c := Max(-1.0, Min(1.0, x));
    var y := if c < 0.0 then c * 32768.0 else c * 32767.0;
    Trunc(y)
  }

  /** setInt16(…, v, true) for v in the 16-bit range. */
  function I16LE(v: int): (bs: seq<Byte>)
    ensures |bs| == 2
  {
    U16LE(v)
  }

  lemma I16RoundTrip(v: int)
    requires -0x8000 <= v <= 0x7FFF
    ensures DecodeI16(I16LE(v), 0) == v
  {
    U16RoundTrip(v);
  }

  /* ---------------------------------------------------------------------
     The file
     --------------------------------------------------------------------- */

  /** The header and two bytes per sample: buffer.length * numOfChan * 2
      + 44 (FileLengthClosed), counted frame by frame. */
  function FileLength(frames: nat, nch: nat): nat
  {
    HeaderSize + SamplesLength(frames, nch)
  }

  /** The RIFF chunk descriptor: 'RIFF', the size of the rest, 'WAVE'. */
  function RiffChunk(len: int): (h: seq<Byte>)
    ensures |h| == 12
  {
    Ascii("RIFF") + U32LE(len - 8) + Ascii("WAVE")
  }

  /** The 'fmt ' sub-chunk: its format half (tag, size 16, PCM, channels)
      and its rates half (sample rate, byte rate, block align, 16 bits per
      sample). */
  function FmtChunk(nch: nat, sampleRate: nat): (h: seq<Byte>)
    ensures |h| == 24
  {
    FmtFormat(nch) + FmtRates(nch, sampleRate)
  }

  function FmtFormat(nch: nat): (h: seq<Byte>)
    ensures |h| == 12
  {
    Ascii("fmt ") + U32LE(16) + U16LE(1) + U16LE(nch)
  }

  function FmtRates(nch: nat, sampleRate: nat): (h: seq<Byte>)
    ensures |h| == 12
  {
    U32LE(sampleRate) + U32LE(sampleRate * 2 * nch) + U16LE(nch * 2) + U16LE(16)
  }

  /** The 'data' sub-chunk header: the tag and the size of the samples. */
  function DataChunkHeader(len: int): (h: seq<Byte>)
    ensures |h| == 8
  {
    Ascii("data") + U32LE(len - HeaderSize)
  }

  function Header(frames: nat, nch: nat, sampleRate: nat): (h: seq<Byte>)
    ensures |h| == HeaderSize
  {
    var len := FileLength(frames, nch);
    RiffChunk(len) + FmtChunk(nch, sampleRate) + DataChunkHeader(len)
  }

  /** The bytes taken by the first i frames: 2 * nch each. */
  function SamplesLength(i: nat, nch: nat): nat
  {
    if i == 0 then 0 else SamplesLength(i - 1, nch) + 2 * nch
  }

  lemma {:induction false} SamplesLengthClosed(i: nat, nch: nat)
    ensures SamplesLength(i, nch) == 2 * i * nch
  {
    if i > 0 {
      SamplesLengthClosed(i - 1, nch);
      assert 2 * i * nch == 2 * (i - 1) * nch + 2 * nch;
    }
  }

  lemma {:induction false} SamplesLengthMonotone(i: nat, j: nat, nch: nat)
    requires i <= j
    ensures SamplesLength(i, nch) <= SamplesLength(j, nch)
    decreases j
  {
    if i < j {
      SamplesLengthMonotone(i, j - 1, nch);
    }
  }

  /** The length bufferToWavUrl allocates. */
  lemma FileLengthClosed(frames: nat, nch: nat)
    ensures FileLength(frames, nch) == frames * nch * 2 + HeaderSize
  {
    SamplesLengthClosed(frames, nch);
    assert 2 * frames * nch == frames * nch * 2;
  }

  /** The codes of channels 0..c-1 of frame i. */
  function FrameBytes(chans: seq<seq<real>>, frames: nat, i: nat, c: nat): (bs: seq<Byte>)
    requires Rectangular(chans, frames) && i < frames && c <= |chans|
    ensures |bs| == 2 * c
  {
    if c == 0 then []
    else FrameBytes(chans, frames, i, c - 1) + I16LE(SampleCode(chans[c - 1][i]))
  }

  /** The codes of frames 0..i-1. */
  function SampleBytes(chans: seq<seq<real>>, frames: nat, i: nat): (bs: seq<Byte>)
    requires Rectangular(chans, frames) && i <= frames
    ensures |bs| == SamplesLength(i, |chans|)
  {
    if i == 0 then []
    else SampleBytes(chans, frames, i - 1) + FrameBytes(chans, frames, i - 1, |chans|)
  }

  /** The whole file. */
  function WavBytes(chans: seq<seq<real>>, frames: nat, sampleRate: nat): seq<Byte>
    requires Rectangular(chans, frames)
  {
    Header(frames, |chans|, sampleRate) + SampleBytes(chans, frames, frames)
  }

  /* --- what a reader of the file finds --- */

  lemma WavLength(chans: seq<seq<real>>, frames: nat, sampleRate: nat)
    requires Rectangular(chans, frames)
    ensures |WavBytes(chans, frames, sampleRate)| == FileLength(frames, |chans|)
  {
  }

  /** A field reads the same inside a longer sequence. */
  lemma DecodeU32Within(bs: seq<Byte>, at: nat, field: seq<Byte>)
    requires at + 4 <= |bs| && bs[at..at + 4] == field
    ensures DecodeU32(bs, at) == DecodeU32(field, 0)
  {
    assert bs[at] == field[0] && bs[at + 1] == field[1] && bs[at + 2] == field[2] && bs[at + 3] == field[3];
  }

  lemma DecodeU16Within(bs: seq<Byte>, at: nat, field: seq<Byte>)
    requires at + 2 <= |bs| && bs[at..at + 2] == field
    ensures DecodeU16(bs, at) == DecodeU16(field, 0)
  {
    assert bs[at] == field[0] && bs[at + 1] == field[1];
  }

  lemma RiffFields(len: int)
    ensures var h := RiffChunk(len);
      h[..4] == Ascii("RIFF") && DecodeU32(h, 4) == (len - 8) % 0x1_0000_0000 && h[8..12] == Ascii("WAVE")
  {
    var h := RiffChunk(len);
    assert h[4..8] == U32LE(len - 8);
    U32Field(h, 4, len - 8);
  }

  lemma FormatFields(nch: nat)
    ensures var h := FmtFormat(nch);
      h[..4] == Ascii("fmt ") && DecodeU32(h, 4) == 16 && DecodeU16(h, 8) == 1 &&
      DecodeU16(h, 10) == nch % 0x1_0000
  {
    var h := FmtFormat(nch);
    var tag, size, format, channels := Ascii("fmt "), U32LE(16), U16LE(1), U16LE(nch);
    assert h == tag + size + format + channels;
    FieldOfConcat(tag, size, format + channels);
    U32Field(h, 4, 16);
    FieldOfConcat(tag + size, format, channels);
    U16Field(h, 8, 1);
    FieldOfConcat(tag + size + format, channels, []);
    U16Field(h, 10, nch);
  }

  lemma RatesFields(nch: nat, sampleRate: nat)
    ensures var h := FmtRates(nch, sampleRate);
      DecodeU32(h, 0) == sampleRate % 0x1_0000_0000 &&
      DecodeU32(h, 4) == (sampleRate * 2 * nch) % 0x1_0000_0000 &&
      DecodeU16(h, 8) == (nch * 2) % 0x1_0000 && DecodeU16(h, 10) == 16
  {
    var h := FmtRates(nch, sampleRate);
    var byteRate := sampleRate * 2 * nch;
    var rate, bytes, align, bits := U32LE(sampleRate), U32LE(byteRate), U16LE(nch * 2), U16LE(16);
    assert h == rate + bytes + align + bits;
    FieldOfConcat([], rate, bytes + align + bits);
    U32Field(h, 0, sampleRate);
    FieldOfConcat(rate, bytes, align + bits);
    U32Field(h, 4, byteRate);
    FieldOfConcat(rate + bytes, align, bits);
    U16Field(h, 8, nch * 2);
    FieldOfConcat(rate + bytes + align, bits, []);
    U16Field(h, 10, 16);
  }

  /** A 32-bit field reads back as its value modulo 2^32. */
  lemma U32Field(h: seq<Byte>, at: nat, v: int)
    requires at + 4 <= |h| && h[at..at + 4] == U32LE(v)
    ensures DecodeU32(h, at) == v % 0x1_0000_0000
  {
    DecodeU32Within(h, at, U32LE(v));
    U32RoundTrip(v);
  }

  /** A 16-bit field reads back as its value modulo 2^16. */
  lemma U16Field(h: seq<Byte>, at: nat, v: int)
    requires at + 2 <= |h| && h[at..at + 2] == U16LE(v)
    ensures DecodeU16(h, at) == v % 0x1_0000
  {
    DecodeU16Within(h, at, U16LE(v));
    U16RoundTrip(v);
  }

  lemma DataFields(len: int)
    ensures var h := DataChunkHeader(len);
      h[..4] == Ascii("data") && DecodeU32(h, 4) == (len - HeaderSize) % 0x1_0000_0000
  {
    var h := DataChunkHeader(len);
    assert h[4..8] == U32LE(len - HeaderSize);
    U32Field(h, 4, len - HeaderSize);
  }

  /** The middle part of a concatenation sits right after the first. */
  lemma FieldOfConcat(x: seq<Byte>, y: seq<Byte>, z: seq<Byte>)
    ensures (x + y + z)[|x|..|x| + |y|] == y
    ensures x + (y + z) == x + y + z
  {
  }

  /** A header field read at `at` inside the file reads as it does inside
      its chunk. */
  lemma ChunkWithin(bs: seq<Byte>, start: nat, chunk: seq<Byte>, at: nat, width: nat)
    requires start + |chunk| <= |bs| && bs[start..start + |chunk|] == chunk
    requires at + width <= |chunk| && (width == 2 || width == 4)
    ensures width == 4 ==> DecodeU32(bs, start + at) == DecodeU32(chunk, at)
    ensures width == 2 ==> DecodeU16(bs, start + at) == DecodeU16(chunk, at)
  {
    assert bs[start + at] == chunk[at] && bs[start + at + 1] == chunk[at + 1];
    if width == 4 {
      assert bs[start + at + 2] == chunk[at + 2] && bs[start + at + 3] == chunk[at + 3];
    }
  }

  /** The file is the header followed by the sample bytes. */
  lemma WavLayout(chans: seq<seq<real>>, frames: nat, sampleRate: nat)
    requires Rectangular(chans, frames)
    ensures var bs := WavBytes(chans, frames, sampleRate);
      |bs| == FileLength(frames, |chans|) &&
      bs[..HeaderSize] == Header(frames, |chans|, sampleRate) &&
      bs[HeaderSize..] == SampleBytes(chans, frames, frames)
  {
    WavLength(chans, frames, sampleRate);
  }

  /** The RIFF descriptor's fields in the header. */
  lemma HeaderRiffFields(frames: nat, nch: nat, sampleRate: nat)
    ensures var h := Header(frames, nch, sampleRate);
      var len := FileLength(frames, nch);
      h[..4] == Ascii("RIFF") && DecodeU32(h, 4) == (len - 8) % 0x1_0000_0000 && h[8..12] == Ascii("WAVE")
  {
    var h := Header(frames, nch, sampleRate);
    var riff := RiffChunk(FileLength(frames, nch));
    assert h[0..12] == riff;
    RiffFields(FileLength(frames, nch));
    ChunkWithin(h, 0, riff, 4, 4);
    assert h[..4] == riff[..4];
    assert h[8..12] == riff[8..12];
  }

  /** The 'fmt ' chunk's format half in the header. */
  lemma HeaderFormatFields(frames: nat, nch: nat, sampleRate: nat)
    ensures var h := Header(frames, nch, sampleRate);
      h[12..16] == Ascii("fmt ") && DecodeU32(h, 16) == 16 && DecodeU16(h, 20) == 1 &&
      DecodeU16(h, 22) == nch % 0x1_0000
  {
    var h := Header(frames, nch, sampleRate);
    var format := FmtFormat(nch);
    assert h[12..24] == format;
    FormatFields(nch);
    ChunkWithin(h, 12, format, 4, 4);
    ChunkWithin(h, 12, format, 8, 2);
    ChunkWithin(h, 12, format, 10, 2);
    assert h[12..16] == format[..4];
  }

  /** The 'fmt ' chunk's rates half in the header. */
  lemma HeaderRatesFields(frames: nat, nch: nat, sampleRate: nat)
    ensures var h := Header(frames, nch, sampleRate);
      DecodeU32(h, 24) == sampleRate % 0x1_0000_0000 &&
      DecodeU32(h, 28) == (sampleRate * 2 * nch) % 0x1_0000_0000 &&
      DecodeU16(h, 32) == (nch * 2) % 0x1_0000 && DecodeU16(h, 34) == 16
  {
    var h := Header(frames, nch, sampleRate);
    var rates := FmtRates(nch, sampleRate);
    assert h[24..36] == rates;
    RatesFields(nch, sampleRate);
    ChunkWithin(h, 24, rates, 0, 4);
    ChunkWithin(h, 24, rates, 4, 4);
    ChunkWithin(h, 24, rates, 8, 2);
    ChunkWithin(h, 24, rates, 10, 2);
  }

  /** The 'data' chunk header's fields in the header. */
  lemma HeaderDataFields(frames: nat, nch: nat, sampleRate: nat)
    ensures var h := Header(frames, nch, sampleRate);
      var len := FileLength(frames, nch);
      h[36..40] == Ascii("data") && DecodeU32(h, 40) == (len - HeaderSize) % 0x1_0000_0000
  {
    var h := Header(frames, nch, sampleRate);
    var data := DataChunkHeader(FileLength(frames, nch));
    assert h[36..44] == data;
    DataFields(FileLength(frames, nch));
    ChunkWithin(h, 36, data, 4, 4);
    assert h[36..40] == data[..4];
  }

  /** The header fields, read back: the tags, the RIFF size len - 8, a
      16-byte 'fmt ' chunk of format 1 with the channel count, sample rate,
      byte rate and block align, 16 bits per sample, and the data size
      len - 44, each modulo its field width. */
  lemma HeaderFields(frames: nat, nch: nat, sampleRate: nat)
    ensures var h := Header(frames, nch, sampleRate);
      var len := FileLength(frames, nch);
      h[..4] == Ascii("RIFF") && h[8..12] == Ascii("WAVE") &&
      h[12..16] == Ascii("fmt ") && h[36..40] == Ascii("data") &&
      DecodeU32(h, 4) == (len - 8) % 0x1_0000_0000 &&
      DecodeU32(h, 16) == 16 && DecodeU16(h, 20) == 1 &&
      DecodeU16(h, 22) == nch % 0x1_0000 &&
      DecodeU32(h, 24) == sampleRate % 0x1_0000_0000 &&
      DecodeU32(h, 28) == (sampleRate * 2 * nch) % 0x1_0000_0000 &&
      DecodeU16(h, 32) == (nch * 2) % 0x1_0000 &&
      DecodeU16(h, 34) == 16 &&
      DecodeU32(h, 40) == (len - HeaderSize) % 0x1_0000_0000
  {
    HeaderRiffFields(frames, nch, sampleRate);
    HeaderFormatFields(frames, nch, sampleRate);
    HeaderRatesFields(frames, nch, sampleRate);
    HeaderDataFields(frames, nch, sampleRate);
  }

  /** A prefix of the frames is a prefix of the sample bytes. */
  lemma {:induction false} SampleBytesPrefix(chans: seq<seq<real>>, frames: nat, i: nat, j: nat)
    requires Rectangular(chans, frames) && i <= j <= frames
    ensures SamplesLength(i, |chans|) <= SamplesLength(j, |chans|)
    ensures SampleBytes(chans, frames, j)[..SamplesLength(i, |chans|)] == SampleBytes(chans, frames, i)
    decreases j
  {
    if j > i {
      SampleBytesPrefix(chans, frames, i, j - 1);
      var a := SampleBytes(chans, frames, j - 1);
      var f := FrameBytes(chans, frames, j - 1, |chans|);
      var m := SamplesLength(i, |chans|);
      assert m <= |a| by {
        SamplesLengthMonotone(i, j - 1, |chans|);
      }
      PrefixOfConcat(a, f, m);
    }
  }

  lemma {:induction false} FrameBytesPrefix(chans: seq<seq<real>>, frames: nat, i: nat, c: nat, d: nat)
    requires Rectangular(chans, frames) && i < frames && c <= d <= |chans|
    ensures FrameBytes(chans, frames, i, d)[..2 * c] == FrameBytes(chans, frames, i, c)
    decreases d
  {
    if d > c {
      FrameBytesPrefix(chans, frames, i, c, d - 1);
      var a := FrameBytes(chans, frames, i, d - 1);
      assert FrameBytes(chans, frames, i, d)[..|a|] == a;
    }
  }

  lemma PrefixOfConcat(a: seq<Byte>, b: seq<Byte>, m: nat)
    requires m <= |a|
    ensures (a + b)[..m] == a[..m]
  {
  }

  /** The two bytes of channel c within frame i. */
  lemma FrameBytesAt(chans: seq<seq<real>>, frames: nat, i: nat, c: nat)
    requires Rectangular(chans, frames) && i < frames && c < |chans|
    ensures var frame := FrameBytes(chans, frames, i, |chans|);
      frame[2 * c] == I16LE(SampleCode(chans[c][i]))[0] &&
      frame[2 * c + 1] == I16LE(SampleCode(chans[c][i]))[1]
  {
    var frame := FrameBytes(chans, frames, i, |chans|);
    var fc := FrameBytes(chans, frames, i, c + 1);
    FrameBytesPrefix(chans, frames, i, c + 1, |chans|);
    assert frame[2 * c] == fc[2 * c] && frame[2 * c + 1] == fc[2 * c + 1];
    assert fc == FrameBytes(chans, frames, i, c) + I16LE(SampleCode(chans[c][i]));
  }

  /** Byte j of frame i within the sample bytes. */
  lemma SampleBytesAt(chans: seq<seq<real>>, frames: nat, i: nat, j: nat)
    requires Rectangular(chans, frames) && i < frames && j < 2 * |chans|
    ensures var k := SamplesLength(i, |chans|) + j;
      var all := SampleBytes(chans, frames, frames);
      k < |all| && all[k] == FrameBytes(chans, frames, i, |chans|)[j]
  {
    var nch := |chans|;
    var upto := SampleBytes(chans, frames, i + 1);
    var before := SampleBytes(chans, frames, i);
    var frame := FrameBytes(chans, frames, i, nch);
    assert upto == before + frame;
    ConcatIndex(before, frame, j);
    SampleBytesPrefix(chans, frames, i + 1, frames);
    PrefixIndex(SampleBytes(chans, frames, frames), upto, |before| + j);
  }

  lemma ConcatIndex(a: seq<Byte>, b: seq<Byte>, j: nat)
    requires j < |b|
    ensures (a + b)[|a| + j] == b[j]
  {
  }

  lemma PrefixIndex(q: seq<Byte>, p: seq<Byte>, k: nat)
    requires |p| <= |q| && q[..|p|] == p && k < |p|
    ensures q[k] == p[k]
  {
    assert q[..|p|][k] == q[k];
  }

  /** Sample c of frame i sits at byte 44 + 2 i nch + 2 c and reads back
      as its 16-bit code. */
  lemma SampleAt(chans: seq<seq<real>>, frames: nat, sampleRate: nat, i: nat, c: nat)
    requires Rectangular(chans, frames) && i < frames && c < |chans|
    ensures var at := HeaderSize + 2 * i * |chans| + 2 * c;
      var bs := WavBytes(chans, frames, sampleRate);
      at + 2 <= |bs| && DecodeI16(bs, at) == SampleCode(chans[c][i])
  {
    var nch := |chans|;
    var all := SampleBytes(chans, frames, frames);
    var k := SamplesLength(i, nch) + 2 * c;
    SampleDecodes(chans, frames, i, c);
    SamplesLengthClosed(i, nch);
    var bs := WavBytes(chans, frames, sampleRate);
    assert bs[HeaderSize + k] == all[k] && bs[HeaderSize + k + 1] == all[k + 1];
  }

  /** Sample c of frame i reads back from the sample bytes. */
  lemma SampleDecodes(chans: seq<seq<real>>, frames: nat, i: nat, c: nat)
    requires Rectangular(chans, frames) && i < frames && c < |chans|
    ensures var k := SamplesLength(i, |chans|) + 2 * c;
      var all := SampleBytes(chans, frames, frames);
      k + 2 <= |all| && DecodeI16(all, k) == SampleCode(chans[c][i])
  {
    var v := SampleCode(chans[c][i]);
    var k := SamplesLength(i, |chans|) + 2 * c;
    var all := SampleBytes(chans, frames, frames);
    SampleCodeBytes(chans, frames, i, c);
    DecodeI16Same(all, k, I16LE(v));
    I16RoundTrip(v);
  }

  /** The two bytes of sample c of frame i within the sample bytes. */
  lemma SampleCodeBytes(chans: seq<seq<real>>, frames: nat, i: nat, c: nat)
    requires Rectangular(chans, frames) && i < frames && c < |chans|
    ensures var k := SamplesLength(i, |chans|) + 2 * c;
      var all := SampleBytes(chans, frames, frames);
      var code := I16LE(SampleCode(chans[c][i]));
      k + 2 <= |all| && all[k] == code[0] && all[k + 1] == code[1]
  {
    SampleBytesAt(chans, frames, i, 2 * c);
    SampleBytesAt(chans, frames, i, 2 * c + 1);
    FrameBytesAt(chans, frames, i, c);
  }

  lemma DecodeI16Same(bs: seq<Byte>, at: nat, code: seq<Byte>)
    requires at + 2 <= |bs| && |code| == 2 && bs[at] == code[0] && bs[at + 1] == code[1]
    ensures DecodeI16(bs, at) == DecodeI16(code, 0)
  {
  }

  /* ---------------------------------------------------------------------
     The DataView writes
     --------------------------------------------------------------------- */

  /** Writes bs at `at`; the bytes before and after it stay as they are. */
  method Put(view: array<Byte>, at: nat, bs: seq<Byte>)
    requires at + |bs| <= view.Length
    modifies view
    ensures view[..at + |bs|] == old(view[..at]) + bs
    ensures view[at + |bs|..] == old(view[at + |bs|..])
  {
    var i := 0;
    while i < |bs|
      invariant 0 <= i <= |bs|
      invariant view[..at + i] == old(view[..at]) + bs[..i]
      invariant forall j :: at + i <= j < view.Length ==> view[j] == old(view[j])
    {
      view[at + i] := bs[i];
      assert view[..at + i + 1] == view[..at + i] + [bs[i]];
      assert bs[..i + 1] == bs[..i] + [bs[i]];
      i := i + 1;
    }
  }

  /** writeUTFBytes. */
  method WriteUtfBytes(view: array<Byte>, at: nat, s: string)
    requires at + |s| <= view.Length
    modifies view
    ensures view[..at + |s|] == old(view[..at]) + Ascii(s)
    ensures view[at + |s|..] == old(view[at + |s|..])
  {
    var i := 0;
    while i < |s|
      invariant 0 <= i <= |s|
      invariant view[..at + i] == old(view[..at]) + Ascii(s)[..i]
      invariant forall j :: at + i <= j < view.Length ==> view[j] == old(view[j])
    {
      view[at + i] := s[i] as int % 256;
      assert view[..at + i + 1] == view[..at + i] + [Ascii(s)[i]];
      assert Ascii(s)[..i + 1] == Ascii(s)[..i] + [Ascii(s)[i]];
      i := i + 1;
    }
  }

  method SetUint16(view: array<Byte>, at: nat, v: int)
    requires at + 2 <= view.Length
    modifies view
    ensures view[..at + 2] == old(view[..at]) + U16LE(v)
    ensures view[at + 2..] == old(view[at + 2..])
  {
    Put(view, at, U16LE(v));
  }

  method SetUint32(view: array<Byte>, at: nat, v: int)
    requires at + 4 <= view.Length
    modifies view
    ensures view[..at + 4] == old(view[..at]) + U32LE(v)
    ensures view[at + 4..] == old(view[at + 4..])
  {
    Put(view, at, U32LE(v));
  }

  /** The writes at offsets 0 through 8. */
  method WriteRiffChunk(view: array<Byte>)
    requires view.Length >= HeaderSize
    modifies view
    ensures view[..12] == RiffChunk(view.Length)
    ensures view[12..] == old(view[12..])
  {
    var length := view.Length;
    WriteUtfBytes(view, 0, "RIFF");
    ghost var p := view[..4];
    SetUint32(view, 4, length - 8);
    ghost var q := view[..8];
    assert q == p + U32LE(length - 8);
    WriteUtfBytes(view, 8, "WAVE");
    assert view[..12] == q + Ascii("WAVE");
  }

  /** Two byte strings that agree from i on agree from any later j on. */
  lemma SuffixAgrees(x: seq<Byte>, y: seq<Byte>, i: nat, j: nat)
    requires i <= j <= |x| == |y| && x[i..] == y[i..]
    ensures x[j..] == y[j..]
  {
    assert forall k :: j <= k < |x| ==> x[k] == x[i..][k - i] && y[k] == y[i..][k - i];
  }

  /** The writes at offsets 12 through 22. */
  method WriteFmtFormat(view: array<Byte>, nch: nat)
    requires view.Length >= HeaderSize
    modifies view
    ensures view[..24] == old(view[..12]) + FmtFormat(nch)
    ensures view[24..] == old(view[24..])
  {
    ghost var p0 := view[..12];
    ghost var v0 := view[..];
    WriteUtfBytes(view, 12, "fmt ");
    ghost var p1 := view[..16];
    ghost var v1 := view[..];
    SetUint32(view, 16, 16);
    ghost var p2 := view[..20];
    ghost var v2 := view[..];
    SetUint16(view, 20, 1);
    ghost var p3 := view[..22];
    ghost var v3 := view[..];
    SetUint16(view, 22, nch);
    assert view[..24] == p0 + Ascii("fmt ") + U32LE(16) + U16LE(1) + U16LE(nch);
    SuffixAgrees(v1, v0, 16, 24);
    SuffixAgrees(v2, v1, 20, 24);
    SuffixAgrees(v3, v2, 22, 24);
  }

  /** The writes at offsets 24 through 34. */
  method WriteFmtRates(view: array<Byte>, nch: nat, sampleRate: nat)
    requires view.Length >= HeaderSize
    modifies view
    ensures view[..36] == old(view[..24]) + FmtRates(nch, sampleRate)
    ensures view[36..] == old(view[36..])
  {
    ghost var p0 := view[..24];
    ghost var v0 := view[..];
    SetUint32(view, 24, sampleRate);
    ghost var p1 := view[..28];
    ghost var v1 := view[..];
    SetUint32(view, 28, sampleRate * 2 * nch);
    ghost var p2 := view[..32];
    ghost var v2 := view[..];
    SetUint16(view, 32, nch * 2);
    ghost var p3 := view[..34];
    ghost var v3 := view[..];
    SetUint16(view, 34, 16);
    assert view[..36] == p0 + U32LE(sampleRate) + U32LE(sampleRate * 2 * nch) + U16LE(nch * 2) + U16LE(16);
    SuffixAgrees(v1, v0, 28, 36);
    SuffixAgrees(v2, v1, 32, 36);
    SuffixAgrees(v3, v2, 34, 36);
  }

  /** The writes at offsets 36 and 40. */
  method WriteDataChunkHeader(view: array<Byte>)
    requires view.Length >= HeaderSize
    modifies view
    ensures view[..44] == old(view[..36]) + DataChunkHeader(view.Length)
    ensures view[44..] == old(view[44..])
  {
    var length := view.Length;
    WriteUtfBytes(view, 36, "data");
    ghost var p := view[..40];
    SetUint32(view, 40, length - 44);
  }

  method WriteHeader(view: array<Byte>, frames: nat, nch: nat, sampleRate: nat)
    requires view.Length == FileLength(frames, nch)
    modifies view
    ensures view[..HeaderSize] == Header(frames, nch, sampleRate)
    ensures view[HeaderSize..] == old(view[HeaderSize..])
  {
    ghost var v0 := view[..];
    WriteRiffChunk(view);
    ghost var v1 := view[..];
    WriteFmtFormat(view, nch);
    ghost var v2 := view[..];
    WriteFmtRates(view, nch, sampleRate);
    ghost var v3 := view[..];
    WriteDataChunkHeader(view);
    HeaderParts(view[..], v3, v2, v1, frames, nch, sampleRate);
    SuffixAgrees(v1, v0, 12, HeaderSize);
    SuffixAgrees(v2, v1, 24, HeaderSize);
    SuffixAgrees(v3, v2, 36, HeaderSize);
  }

  /** The four header writes, each on the prefix the previous one left,
      make the whole header. */
  lemma HeaderParts(v4: seq<Byte>, v3: seq<Byte>, v2: seq<Byte>, v1: seq<Byte>, frames: nat, nch: nat, sampleRate: nat)
    requires |v1| == |v2| == |v3| == |v4| == FileLength(frames, nch)
    requires v1[..12] == RiffChunk(FileLength(frames, nch))
    requires v2[..24] == v1[..12] + FmtFormat(nch)
    requires v3[..36] == v2[..24] + FmtRates(nch, sampleRate)
    requires v4[..44] == v3[..36] + DataChunkHeader(FileLength(frames, nch))
    ensures v4[..HeaderSize] == Header(frames, nch, sampleRate)
  {
  }

  /** Frame i ends within the file. */
  lemma FrameInBounds(i: nat, frames: nat, nch: nat)
    requires i < frames
    ensures HeaderSize + SamplesLength(i + 1, nch) <= FileLength(frames, nch)
  {
    SamplesLengthMonotone(i + 1, frames, nch);
  }

  /** The channel loop for frame i: each sample clamped, scaled and set as a
      16-bit integer at the moving offset. */
  method WriteFrame(view: array<Byte>, chans: seq<seq<real>>, frames: nat, i: nat, at: nat)
    requires Rectangular(chans, frames) && i < frames
    requires at + 2 * |chans| <= view.Length
    modifies view
    ensures view[..at + 2 * |chans|] == old(view[..at]) + FrameBytes(chans, frames, i, |chans|)
    ensures view[at + 2 * |chans|..] == old(view[at + 2 * |chans|..])
  {
    ghost var v0 := view[..];
    var offset := at;
    var c := 0;
    while c < |chans|
      invariant 0 <= c <= |chans|
      invariant offset == at + 2 * c
      invariant view[..offset] == v0[..at] + FrameBytes(chans, frames, i, c)
      invariant view[offset..] == v0[offset..]
    {
      var v := ClampAndScale(chans[c][i]);
      ghost var before := view[..];
      SetUint16(view, offset, v);
      FrameWriteStep(view[..], before, v0, chans, frames, i, c, at, offset);
      offset := offset + 2;
      c := c + 1;
    }
  }

  /** The sample clamped to [-1, 1], scaled and truncated to its code. */
  method ClampAndScale(x: real) returns (v: int)
    ensures v == SampleCode(x)
  {
    var sample := Max(-1.0, Min(1.0, x));
    v := Trunc(if sample < 0.0 then sample * 32768.0 else sample * 32767.0);
  }

  /** One turn of the channel loop: the view before and after setting
      channel c's code at `offset`, against the view v0 the loop started
      from. */
  lemma FrameWriteStep(after: seq<Byte>, before: seq<Byte>, v0: seq<Byte>, chans: seq<seq<real>>,
                       frames: nat, i: nat, c: nat, at: nat, offset: nat)
    requires Rectangular(chans, frames) && i < frames && c < |chans|
    requires |after| == |before| == |v0| && offset == at + 2 * c && offset + 2 <= |v0|
    requires before[..offset] == v0[..at] + FrameBytes(chans, frames, i, c)
    requires before[offset..] == v0[offset..]
    requires after[..offset + 2] == before[..offset] + I16LE(SampleCode(chans[c][i]))
    requires after[offset + 2..] == before[offset + 2..]
    ensures after[..offset + 2] == v0[..at] + FrameBytes(chans, frames, i, c + 1)
    ensures after[offset + 2..] == v0[offset + 2..]
  {
    SuffixAgrees(before, v0, offset, offset + 2);
    FrameStep(chans, frames, i, c, v0[..at]);
  }

  /** Channel c's code appended to channels 0..c-1 of frame i. */
  lemma FrameStep(chans: seq<seq<real>>, frames: nat, i: nat, c: nat, prefix: seq<Byte>)
    requires Rectangular(chans, frames) && i < frames && c < |chans|
    ensures (prefix + FrameBytes(chans, frames, i, c)) + I16LE(SampleCode(chans[c][i]))
      == prefix + FrameBytes(chans, frames, i, c + 1)
  {
  }

  /** One turn of the frame loop: frame i follows the frames before it. */
  method WriteNextFrame(view: array<Byte>, chans: seq<seq<real>>, frames: nat, i: nat, offset: nat,
                        ghost header: seq<Byte>)
    returns (next: nat)
    requires Rectangular(chans, frames) && i < frames && |header| == HeaderSize
    requires view.Length == FileLength(frames, |chans|)
    requires offset == HeaderSize + SamplesLength(i, |chans|) <= view.Length
    requires view[..offset] == header + SampleBytes(chans, frames, i)
    modifies view
    ensures next == HeaderSize + SamplesLength(i + 1, |chans|) <= view.Length
    ensures view[..next] == header + SampleBytes(chans, frames, i + 1)
    ensures view[next..] == old(view[next..])
  {
    FrameInBounds(i, frames, |chans|);
    WriteFrame(view, chans, frames, i, offset);
    next := offset + 2 * |chans|;
    NextFrame(chans, frames, i, header);
  }

  /** Frame i appended to the frames before it makes the first i + 1. */
  lemma NextFrame(chans: seq<seq<real>>, frames: nat, i: nat, header: seq<Byte>)
    requires Rectangular(chans, frames) && i < frames
    ensures (header + SampleBytes(chans, frames, i)) + FrameBytes(chans, frames, i, |chans|)
      == header + SampleBytes(chans, frames, i + 1)
  {
    assert SampleBytes(chans, frames, i + 1)
      == SampleBytes(chans, frames, i) + FrameBytes(chans, frames, i, |chans|);
  }

  /** The frame loop: every frame after the header, in order. */
  method WriteSamples(view: array<Byte>, chans: seq<seq<real>>, frames: nat, ghost header: seq<Byte>)
    requires Rectangular(chans, frames) && |header| == HeaderSize
    requires view.Length == FileLength(frames, |chans|)
    requires view[..HeaderSize] == header
    modifies view
    ensures view[..] == header + SampleBytes(chans, frames, frames)
  {
    var nch := |chans|;
    var offset := 44;
    var i := 0;
    assert view[..offset] == header + SampleBytes(chans, frames, 0);
    while i < frames
      invariant 0 <= i <= frames
      invariant offset == HeaderSize + SamplesLength(i, nch) <= view.Length
      invariant view[..offset] == header + SampleBytes(chans, frames, i)
    {
      offset := WriteNextFrame(view, chans, frames, i, offset, header);
      i := i + 1;
    }
    assert view[..] == view[..offset];
  }

  /** bufferToWavUrl's bytes. */
  method BufferToWav(chans: seq<seq<real>>, frames: nat, sampleRate: nat) returns (bytes: seq<Byte>)
    requires Rectangular(chans, frames)
    ensures bytes == WavBytes(chans, frames, sampleRate)
  {
    var nch := |chans|;
    var length := frames * nch * 2 + 44;
    FileLengthClosed(frames, nch);
    var view := new Byte[length](_ => 0);
    WriteHeader(view, frames, nch, sampleRate);
    WriteSamples(view, chans, frames, Header(frames, nch, sampleRate));
    bytes := view[..];
  }
}
