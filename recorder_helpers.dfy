/**
  web_ui/src/components/recorder/helpers.ts: the WAV packer `audioBufferToWav`
  and the `m:ss` formatter `secondsToTime`.

  The container is the RIFF WAVE form of the Microsoft/IBM Multimedia
  Programming Interface and Data Specifications 1.0: a 44-byte header made of
  the "RIFF" chunk descriptor, the 16-byte PCM "fmt " chunk and the "data"
  chunk header, followed by the samples as little-endian signed 16-bit words.
 */
module RecorderHelpers {
  import opened Bytes
  import opened Text

  /**
    A `Blob` object: its bytes, its media type and its identity. Every `new Blob`
    is a distinct object, so `serial` is drawn fresh at each allocation and two
    blobs are the same object exactly when they are equal as values.
   */
  datatype Blob = Blob(bytes: seq<byte>, mimeType: string, serial: nat)

  /**
    A decoded audio buffer. Only channel 0 is read by the packer (`getChannelData(0)`),
    so the model keeps that channel; `length` is its number of frames.
   */
  datatype AudioBuffer = AudioBuffer(channelData: seq<real>, sampleRate: nat)

  const HEADER_SIZE: nat := 44
  const WAV_MIME_TYPE: string := "audio/wav"
  /** The single scale factor applied to both signs (`0x7fff`). */
  const INT16_SCALE: real := 32767.0

  function Clamp(x: real): (r: real)
    ensures -1.0 <= r <= 1.0
    ensures -1.0 <= x <= 1.0 ==> r == x
  {
    if x > 1.0 then 1.0 else if x < -1.0 then -1.0 else x
  }

  /** The integral part of a real, rounding toward zero (ToInt16 drops the fraction this way). */
  function Truncate(x: real): (r: int)
    ensures x >= 0.0 ==> r == x.Floor
    ensures x < 0.0 ==> r == -((-x).Floor)
  {
    if x >= 0.0 then x.Floor else -((-x).Floor)
  }

  /** The int16 stored for one sample: clamped to [-1, 1], scaled by 0x7fff, truncated. */
  function SampleValue(x: real): (v: int)
    ensures -32767 <= v <= 32767
    ensures x >= 1.0 ==> v == 32767
    ensures x <= -1.0 ==> v == -32767
    ensures x == 0.0 ==> v == 0
    ensures (x >= 0.0 ==> v >= 0) && (x <= 0.0 ==> v <= 0)
  {
    Truncate(Clamp(x) * INT16_SCALE)
  }

  /** The 44 header bytes for `n` frames at `rate`, field by field. */
  function WavHeader(n: nat, rate: nat): (h: seq<byte>)
    ensures |h| == HEADER_SIZE
  {
    Ascii("RIFF") + Uint32Bytes(36 + n * 2) + Ascii("WAVE")
    + Ascii("fmt ") + Uint32Bytes(16) + Uint16Bytes(1) + Uint16Bytes(1)
    + Uint32Bytes(rate) + Uint32Bytes(rate * 2) + Uint16Bytes(2) + Uint16Bytes(16)
    + Ascii("data") + Uint32Bytes(n * 2)
  }

  /** Sample data: byte `j` is byte `j % 2` of the int16 encoding of sample `j / 2`. */
  function PcmData(samples: seq<real>): (r: seq<byte>)
    ensures |r| == 2 * |samples|
  {
    seq(2 * |samples|, j requires 0 <= j < 2 * |samples| => Uint16Bytes(SampleValue(samples[j / 2]))[j % 2])
  }

  /** The byte image `audioBufferToWav` produces for a buffer. */
  function WavFile(b: AudioBuffer): seq<byte> {
    WavHeader(|b.channelData|, b.sampleRate) + PcmData(b.channelData)
  }

  /** `writeString`: one `setUint8` per character. */
  method WriteString(view: array<byte>, offset: nat, s: string)
    requires forall i :: 0 <= i < |s| ==> s[i] as int < 128
    requires offset + |s| <= view.Length
    modifies view
    ensures view[offset..offset + |s|] == Ascii(s)
    ensures forall j :: 0 <= j < view.Length && !(offset <= j < offset + |s|) ==> view[j] == old(view[j])
  {
    for i := 0 to |s|
      invariant forall k :: 0 <= k < i ==> view[offset + k] as int == s[k] as int
      invariant forall j :: 0 <= j < view.Length && !(offset <= j < offset + i) ==> view[j] == old(view[j])
    {
      view[offset + i] := s[i] as int as byte;
    }
  }

  /** `setUint32(offset, v, true)`. */
  method SetUint32(view: array<byte>, offset: nat, v: int)
    requires offset + 4 <= view.Length
    modifies view
    ensures view[offset..offset + 4] == Uint32Bytes(v)
    ensures forall j :: 0 <= j < view.Length && !(offset <= j < offset + 4) ==> view[j] == old(view[j])
  {
    var b := Uint32Bytes(v);
    view[offset], view[offset + 1], view[offset + 2], view[offset + 3] := b[0], b[1], b[2], b[3];
  }

  /** `setUint16(offset, v, true)` and `setInt16(offset, v, true)`: both store `v` modulo 2^16. */
  method Set16(view: array<byte>, offset: nat, v: int)
    requires offset + 2 <= view.Length
    modifies view
    ensures view[offset..offset + 2] == Uint16Bytes(v)
    ensures forall j :: 0 <= j < view.Length && !(offset <= j < offset + 2) ==> view[j] == old(view[j])
  {
    var b := Uint16Bytes(v);
    view[offset], view[offset + 1] := b[0], b[1];
  }

  /** The header writes of `audioBufferToWav`, in the order of the source. */
  method WriteHeader(view: array<byte>, n: nat, rate: nat)
    requires view.Length == HEADER_SIZE + 2 * n
    modifies view
    ensures view[..HEADER_SIZE] == WavHeader(n, rate)
  {
    WriteRiffDescriptor(view, n);
    WriteFmtChunk(view, rate);
    WriteDataChunkHeader(view, n);
    HeaderFields(view[..], n, rate);
  }

  /** Bytes 0-11: "RIFF", the RIFF chunk size 36 + 2n, "WAVE". */
  method WriteRiffDescriptor(view: array<byte>, n: nat)
    requires view.Length >= HEADER_SIZE
    modifies view
    ensures view[0..4] == Ascii("RIFF") && view[4..8] == Uint32Bytes(36 + n * 2) && view[8..12] == Ascii("WAVE")
    ensures forall j :: 12 <= j < view.Length ==> view[j] == old(view[j])
  {
    WriteString(view, 0, "RIFF");
    SetUint32(view, 4, 36 + n * 2);
    WriteString(view, 8, "WAVE");
  }

  /** Bytes 12-35: the "fmt " sub-chunk for 16-bit mono PCM at `rate`. */
  method WriteFmtChunk(view: array<byte>, rate: nat)
    requires view.Length >= HEADER_SIZE
    modifies view
    ensures view[12..16] == Ascii("fmt ") && view[16..20] == Uint32Bytes(16)
    ensures view[20..22] == Uint16Bytes(1) && view[22..24] == Uint16Bytes(1)
    ensures view[24..28] == Uint32Bytes(rate) && view[28..32] == Uint32Bytes(rate * 2)
    ensures view[32..34] == Uint16Bytes(2) && view[34..36] == Uint16Bytes(16)
    ensures forall j :: 0 <= j < view.Length && !(12 <= j < 36) ==> view[j] == old(view[j])
  {
    WriteString(view, 12, "fmt ");
    SetUint32(view, 16, 16);
    Set16(view, 20, 1);
    Set16(view, 22, 1);
    SetUint32(view, 24, rate);
    SetUint32(view, 28, rate * 2);
    Set16(view, 32, 2);
    Set16(view, 34, 16);
  }

  /** Bytes 36-43: "data" and the data size 2n. */
  method WriteDataChunkHeader(view: array<byte>, n: nat)
    requires view.Length >= HEADER_SIZE
    modifies view
    ensures view[36..40] == Ascii("data") && view[40..44] == Uint32Bytes(n * 2)
    ensures forall j :: 0 <= j < view.Length && !(36 <= j < 44) ==> view[j] == old(view[j])
  {
    WriteString(view, 36, "data");
    SetUint32(view, 40, n * 2);
  }

  /** The 13 fields, each at its offset, make up the header. */
  lemma HeaderFields(s: seq<byte>, n: nat, rate: nat)
    requires |s| >= HEADER_SIZE
    requires s[0..4] == Ascii("RIFF") && s[4..8] == Uint32Bytes(36 + n * 2)
    requires s[8..12] == Ascii("WAVE") && s[12..16] == Ascii("fmt ")
    requires s[16..20] == Uint32Bytes(16) && s[20..22] == Uint16Bytes(1) && s[22..24] == Uint16Bytes(1)
    requires s[24..28] == Uint32Bytes(rate) && s[28..32] == Uint32Bytes(rate * 2)
    requires s[32..34] == Uint16Bytes(2) && s[34..36] == Uint16Bytes(16)
    requires s[36..40] == Ascii("data") && s[40..44] == Uint32Bytes(n * 2)
    ensures s[..HEADER_SIZE] == WavHeader(n, rate)
  {
    assert s[..HEADER_SIZE] == s[0..4] + s[4..8] + s[8..12] + s[12..16] + s[16..20] + s[20..22]
      + s[22..24] + s[24..28] + s[28..32] + s[32..34] + s[34..36] + s[36..40] + s[40..44];
  }

  /**
    `audioBufferToWav`: allocates 44 + 2·length bytes, writes the header, then
    each clamped and scaled sample at offset 44 + 2·i; `serial` is the
    identity of the `new Blob` it returns.
   */
  method AudioBufferToWav(buffer: AudioBuffer, serial: nat) returns (blob: Blob)
    ensures blob.bytes == WavFile(buffer)
    ensures blob.mimeType == WAV_MIME_TYPE
    ensures blob.serial == serial
  {
    var channelData := buffer.channelData;
    var length := |channelData|;
    var view := new byte[HEADER_SIZE + length * 2];
    WriteHeader(view, length, buffer.sampleRate);
    var offset := HEADER_SIZE;
    for i := 0 to length
      invariant offset == HEADER_SIZE + 2 * i
      invariant view[..HEADER_SIZE] == WavHeader(length, buffer.sampleRate)
      invariant forall j :: 0 <= j < 2 * i ==> view[HEADER_SIZE + j] == PcmData(channelData)[j]
    {
      var sample := Clamp(channelData[i]);
      Set16(view, offset, Truncate(sample * INT16_SCALE));
      assert view[offset] == view[offset..offset + 2][0] && view[offset + 1] == view[offset..offset + 2][1];
      offset := offset + 2;
    }
    assert view[..] == WavFile(buffer) by {
      assert view[..] == view[..HEADER_SIZE] + view[HEADER_SIZE..];
      assert view[HEADER_SIZE..] == PcmData(channelData);
    }
    blob := Blob(view[..], WAV_MIME_TYPE, serial);
  }

  /** The file is exactly 44 + 2·length bytes long. */
  lemma WavFileSize(b: AudioBuffer)
    ensures |WavFile(b)| == HEADER_SIZE + 2 * |b.channelData|
  {
  }

  /** The ASCII chunk tags stand at offsets 0, 8, 12 and 36. */
  lemma WavFileTags(b: AudioBuffer)
    ensures WavFile(b)[0..4] == Ascii("RIFF")
    ensures WavFile(b)[8..12] == Ascii("WAVE")
    ensures WavFile(b)[12..16] == Ascii("fmt ")
    ensures WavFile(b)[36..40] == Ascii("data")
  {
    var h := WavHeader(|b.channelData|, b.sampleRate);
    assert WavFile(b)[..HEADER_SIZE] == h;
  }

  /**
    Reading the header fields back: the RIFF size 36 + 2n, the PCM format
    description (16, 1, 1, rate, rate·2, 2, 16) and the data size 2n, each
    reduced modulo its field width exactly as `DataView` stores it.
   */
  lemma WavFileFields(b: AudioBuffer)
    ensures var f, n, rate := WavFile(b), |b.channelData|, b.sampleRate;
      && ReadUint32(f, 4) == (36 + 2 * n) % TWO_32
      && ReadUint32(f, 16) == 16
      && ReadUint16(f, 20) == 1
      && ReadUint16(f, 22) == 1
      && ReadUint32(f, 24) == rate % TWO_32
      && ReadUint32(f, 28) == (rate * 2) % TWO_32
      && ReadUint16(f, 32) == 2
      && ReadUint16(f, 34) == 16
      && ReadUint32(f, 40) == (2 * n) % TWO_32
  {
    var f, n, rate := WavFile(b), |b.channelData|, b.sampleRate;
    var h := WavHeader(n, rate);
    assert f[..HEADER_SIZE] == h;
    assert f[4..8] == Uint32Bytes(36 + n * 2);
    ReadUint32At(f, 4, 36 + n * 2);
    assert f[16..20] == Uint32Bytes(16);
    ReadUint32At(f, 16, 16);
    assert f[20..22] == Uint16Bytes(1);
    ReadUint16At(f, 20, 1);
    assert f[22..24] == Uint16Bytes(1);
    ReadUint16At(f, 22, 1);
    assert f[24..28] == Uint32Bytes(rate);
    ReadUint32At(f, 24, rate);
    assert f[28..32] == Uint32Bytes(rate * 2);
    ReadUint32At(f, 28, rate * 2);
    assert f[32..34] == Uint16Bytes(2);
    ReadUint16At(f, 32, 2);
    assert f[34..36] == Uint16Bytes(16);
    ReadUint16At(f, 34, 16);
    assert f[40..44] == Uint32Bytes(n * 2);
    ReadUint32At(f, 40, n * 2);
  }

  /** The two bytes at 44 + 2·i are the int16 encoding of sample i. */
  lemma WavFileSampleAt(b: AudioBuffer, i: nat)
    requires i < |b.channelData|
    ensures WavFile(b)[HEADER_SIZE + 2 * i..HEADER_SIZE + 2 * i + 2] == Uint16Bytes(SampleValue(b.channelData[i]))
  {
    var h, p := WavHeader(|b.channelData|, b.sampleRate), PcmData(b.channelData);
    var v := SampleValue(b.channelData[i]);
    var lo, hi := 2 * i, 2 * i + 1;
    assert lo / 2 == i && lo % 2 == 0;
    assert hi / 2 == i && hi % 2 == 1;
    assert p[lo] == Uint16Bytes(v)[0];
    assert p[hi] == Uint16Bytes(v)[1];
    var f := h + p;
    assert f[HEADER_SIZE + lo] == p[lo];
    assert f[HEADER_SIZE + hi] == p[hi];
  }

  /**
    Round trip: when the rates and sizes fit their 32-bit fields, decoding the
    header gives back the sample rate and the data size, and decoding the int16
    at 44 + 2·i gives back the stored value of sample i.
   */
  lemma WavFileRoundTrip(b: AudioBuffer, i: nat)
    requires b.sampleRate * 2 < TWO_32 && 36 + 2 * |b.channelData| < TWO_32
    requires i < |b.channelData|
    ensures ReadUint32(WavFile(b), 24) == b.sampleRate
    ensures ReadUint32(WavFile(b), 40) == 2 * |b.channelData|
    ensures ReadInt16(WavFile(b), HEADER_SIZE + 2 * i) == SampleValue(b.channelData[i])
  {
    var n, rate := |b.channelData|, b.sampleRate;
    assert rate <= rate * 2;
    assert rate % TWO_32 == rate;
    assert (2 * n) % TWO_32 == 2 * n;
    WavFileFields(b);
    WavFileSampleAt(b, i);
    ReadInt16At(WavFile(b), HEADER_SIZE + 2 * i, SampleValue(b.channelData[i]));
  }

  /** ECMAScript `%` on numbers: the remainder takes the sign of the dividend. */
  function JsRemainder(x: real, y: real): real
    requires y != 0.0
  {
    x - y * Truncate(x / y) as real
  }

  /** `secondsToTime`: minutes, a colon, and the whole seconds padded to two digits. */
  function SecondsToTime(seconds: real): string {
    var minutes := (seconds / 60.0).Floor;
    var secs := JsRemainder(seconds, 60.0).Floor;
    IntToString(minutes) + ":" + PadStart2(IntToString(secs))
  }

  /** For s ≥ 0, whole minutes and the truncated remainder recombine to ⌊s⌋. */
  lemma MinutesAndSeconds(seconds: real)
    requires seconds >= 0.0
    ensures var m, ss := (seconds / 60.0).Floor, JsRemainder(seconds, 60.0).Floor;
      0 <= m && 0 <= ss < 60 && 60 * m + ss == seconds.Floor
  {
    var m := (seconds / 60.0).Floor;
    assert Truncate(seconds / 60.0) == m;
    var rem := JsRemainder(seconds, 60.0);
    assert rem == seconds - 60.0 * m as real;
    assert 0.0 <= rem < 60.0;
    var ss := rem.Floor;
    assert (ss + 60 * m) as real <= seconds < (ss + 60 * m) as real + 1.0;
  }

  /** `padStart(2, "0")` of a number below 60 is two digits that read back as it. */
  lemma TwoDigits(ss: nat)
    requires ss < 60
    ensures var d := PadStart2(NatToString(ss)); |d| == 2 && AllDigits(d) && DigitsValue(d) == ss
  {
    var d := PadStart2(NatToString(ss));
    NatToStringRoundTrip(ss);
    if ss < 10 {
      assert d == ['0', DigitChar(ss)];
      assert d[..1] == ['0'];
    }
  }

  /**
    For a non-negative time the text is `m:ss`: `m` reads back as ⌊s/60⌋, `ss`
    is exactly two digits reading back as a value below 60, and together they
    give back the whole number of seconds ⌊s⌋.
   */
  lemma SecondsToTimeShape(seconds: real)
    requires seconds >= 0.0
    ensures var r := SecondsToTime(seconds); var k := |r| - 3;
      && k >= 1 && r[k] == ':' && AllDigits(r[..k]) && AllDigits(r[k + 1..])
      && DigitsValue(r[..k]) == (seconds / 60.0).Floor
      && DigitsValue(r[k + 1..]) < 60
      && 60 * DigitsValue(r[..k]) + DigitsValue(r[k + 1..]) == seconds.Floor
  {
    MinutesAndSeconds(seconds);
    var m, ss := (seconds / 60.0).Floor, JsRemainder(seconds, 60.0).Floor;
    var ms, digits := NatToString(m), PadStart2(NatToString(ss));
    NatToStringRoundTrip(m);
    TwoDigits(ss);
    var r := SecondsToTime(seconds);
    assert r == ms + ":" + digits;
    assert r[..|r| - 3] == ms;
    assert r[|r| - 2..] == digits;
  }
}
