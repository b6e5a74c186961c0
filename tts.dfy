/** views/TTSView.tsx: the speech lab. `bufferToWav` writes a mono 16-bit PCM buffer as a
    canonical RIFF/WAVE file (a 44-byte header whose `fmt ` chunk is 16 bytes long,
    followed by the samples) into a zero-filled byte array at fixed offsets;
    `handleSynthesize` guards, resets the outputs, and stores what the two calls return. */
module SpeechLab {
  import opened Wrappers
  import opened Types
  import Text
  import Base64
  import GeminiService

  type byte = GeminiService.byte
  type int16 = GeminiService.int16

  const HeaderSize: nat := 44
  const SynthesisFailed: string := "Synthesis failed."
  const OutputSampleRate: int := 24000

  // ---------------------------------------------------------------------------------
  // Little-endian fields

  /** `setUint16(offset, v, true)`: the value modulo 2^16, low byte first. */
  function U16Bytes(v: int): (b: seq<byte>)
    ensures |b| == 2
  {
    var u := v % 0x1_0000;
    [u % 256, u / 256]
  }

  /** `setUint32(offset, v, true)`: the value modulo 2^32, low byte first. */
  function U32Bytes(v: int): (b: seq<byte>)
    ensures |b| == 4
  {
    var u := v % 0x1_0000_0000;
    [u % 256, (u / 256) % 256, (u / 0x1_0000) % 256, u / 0x100_0000]
  }

  /** The unsigned 16-bit little-endian field at `offset`. */
  function U16At(s: seq<byte>, offset: nat): int
    requires offset + 2 <= |s|
  {
    s[offset] as int + 256 * (s[offset + 1] as int)
  }

  /** The unsigned 32-bit little-endian field at `offset`. */
  function U32At(s: seq<byte>, offset: nat): int
    requires offset + 4 <= |s|
  {
    s[offset] as int + 256 * (s[offset + 1] as int) + 0x1_0000 * (s[offset + 2] as int) + 0x100_0000 * (s[offset + 3] as int)
  }

  /** The character codes of an ASCII tag (`writeString`). */
  function Ascii(s: string): (b: seq<byte>)
    requires forall i :: 0 <= i < |s| ==> s[i] as int < 256
    ensures |b| == |s|
  {
    seq(|s|, i requires 0 <= i < |s| => s[i] as int)
  }

  lemma U16RoundTrip(v: int)
    ensures U16At(U16Bytes(v), 0) == v % 0x1_0000
  {
  }

  lemma U32RoundTrip(v: int)
    ensures U32At(U32Bytes(v), 0) == v % 0x1_0000_0000
  {
    var u := v % 0x1_0000_0000;
    var b0, b1, b2, b3 := u % 256, (u / 256) % 256, (u / 0x1_0000) % 256, u / 0x100_0000;
    assert u / 256 == b1 + 256 * (u / 0x1_0000);
    assert u / 0x1_0000 == b2 + 256 * b3;
    assert u == b0 + 256 * (u / 256);
  }

  // ---------------------------------------------------------------------------------
  // The WAV layout

  /** `sample < 0 ? sample * 0x8000 : sample * 0x7FFF` after clamping to [-1, 1], stored by
      `setInt16`, which truncates toward zero. */
  function Quantize(x: real): int {
    var s := if x < -1.0 then -1.0 else if x > 1.0 then 1.0 else x;
    if s < 0.0 then -((-(s * 32768.0)).Floor) else (s * 32767.0).Floor
  }

  /** Every quantized sample fits a signed 16-bit field, keeps the sign of the input, and
      the full-scale values map to the two ends of the range. */
  lemma QuantizeRange(x: real)
    ensures -32768 <= Quantize(x) <= 32767
    ensures x < 0.0 ==> Quantize(x) <= 0
    ensures x >= 0.0 ==> Quantize(x) >= 0
    ensures x >= 1.0 ==> Quantize(x) == 32767
    ensures x <= -1.0 ==> Quantize(x) == -32768
  {
    var s := if x < -1.0 then -1.0 else if x > 1.0 then 1.0 else x;
    if s < 0.0 {
      assert 0.0 < -(s * 32768.0) <= 32768.0;
      assert (-(s * 32768.0)).Floor <= 32768;
      if x <= -1.0 {
        assert -(s * 32768.0) == 32768.0;
      }
    } else {
      assert 0.0 <= s * 32767.0 <= 32767.0;
      assert (s * 32767.0).Floor <= 32767;
      if x >= 1.0 {
        assert s * 32767.0 == 32767.0;
      }
    }
  }

  /** The two bytes a quantized sample is stored as. */
  function SampleField(x: real): (b: seq<byte>)
    ensures |b| == 2
  {
    QuantizeRange(x);
    GeminiService.Int16Bytes(Quantize(x))
  }

  /** The data chunk: the samples' fields in order. */
  function SampleBytes(samples: seq<real>): (b: seq<byte>)
    ensures |b| == 2 * |samples|
  {
    if samples == [] then [] else SampleBytes(samples[..|samples| - 1]) + SampleField(samples[|samples| - 1])
  }

  /** The RIFF descriptor: the tag, the size of the rest of the file, the WAVE tag. */
  function RiffDescriptor(dataLength: int): (c: seq<byte>)
    ensures |c| == 12
  {
    Ascii("RIFF") + U32Bytes(36 + dataLength) + Ascii("WAVE")
  }

  /** The first half of the `fmt ` chunk: the tag, size 16, PCM format 1, one channel. */
  function FmtHead(): (c: seq<byte>)
    ensures |c| == 12
  {
    Ascii("fmt ") + U32Bytes(16) + U16Bytes(1) + U16Bytes(1)
  }

  /** The second half: the rate, the byte rate, the block align and the bit depth. */
  function FmtTail(sampleRate: int, byteRate: int, blockAlign: int): (c: seq<byte>)
    ensures |c| == 12
  {
    U32Bytes(sampleRate) + U32Bytes(byteRate) + U16Bytes(blockAlign) + U16Bytes(16)
  }

  /** The 24-byte `fmt ` chunk. */
  function FmtChunk(sampleRate: int, byteRate: int, blockAlign: int): (c: seq<byte>)
    ensures |c| == 24
  {
    FmtHead() + FmtTail(sampleRate, byteRate, blockAlign)
  }

  /** Where the four pieces of a four-piece sequence lie. */
  lemma Pieces4(a: seq<byte>, b: seq<byte>, c: seq<byte>, d: seq<byte>)
    ensures var x := a + b + c + d;
      && x[..|a|] == a && x[|a|..|a| + |b|] == b
      && x[|a| + |b|..|a| + |b| + |c|] == c && x[|a| + |b| + |c|..] == d
  {
  }

  /** A slice of a slice is a slice. */
  lemma SubSlice(w: seq<byte>, o: nat, n: nat, i: nat, j: nat)
    requires o + n <= |w| && i <= j <= n
    ensures w[o..o + n][i..j] == w[o + i..o + j]
  {
    var inner, outer := w[o..o + n][i..j], w[o + i..o + j];
    forall k | 0 <= k < j - i
      ensures inner[k] == outer[k]
    {
      assert inner[k] == w[o + i + k];
    }
  }

  /** The data chunk header: the tag and the byte count of the samples. */
  function DataHeader(dataLength: int): (c: seq<byte>)
    ensures |c| == 8
  {
    Ascii("data") + U32Bytes(dataLength)
  }

  /** The 44-byte header for `dataLength` bytes of mono 16-bit PCM at `sampleRate`. */
  function Header(sampleRate: int, dataLength: int): (h: seq<byte>)
    ensures |h| == HeaderSize
  {
    RiffDescriptor(dataLength) + FmtChunk(sampleRate, sampleRate * 2, 2) + DataHeader(dataLength)
  }

  /** The whole file. */
  function WavBytes(sampleRate: int, samples: seq<real>): (w: seq<byte>)
    ensures |w| == HeaderSize + 2 * |samples|
  {
    Header(sampleRate, 2 * |samples|) + SampleBytes(samples)
  }

  lemma U16Field(s: seq<byte>, o: nat, v: int)
    requires o + 2 <= |s| && s[o..o + 2] == U16Bytes(v)
    ensures U16At(s, o) == v % 0x1_0000
  {
    U16RoundTrip(v);
    assert s[o] == U16Bytes(v)[0] && s[o + 1] == U16Bytes(v)[1];
  }

  lemma U32Field(s: seq<byte>, o: nat, v: int)
    requires o + 4 <= |s| && s[o..o + 4] == U32Bytes(v)
    ensures U32At(s, o) == v % 0x1_0000_0000
  {
    U32RoundTrip(v);
    assert s[o] == U32Bytes(v)[0] && s[o + 1] == U32Bytes(v)[1];
    assert s[o + 2] == U32Bytes(v)[2] && s[o + 3] == U32Bytes(v)[3];
  }

  /** The fields of a RIFF descriptor at the start of a file. */
  lemma RiffFields(w: seq<byte>, dataLength: int)
    requires |w| >= 12 && w[..12] == RiffDescriptor(dataLength)
    ensures w[0..4] == Ascii("RIFF") && w[8..12] == Ascii("WAVE")
    ensures U32At(w, 4) == (36 + dataLength) % 0x1_0000_0000
  {
    var c := RiffDescriptor(dataLength);
    assert c[4..8] == U32Bytes(36 + dataLength);
    assert w[4..8] == c[4..8];
    U32Field(w, 4, 36 + dataLength);
  }

  /** The fields of the `fmt ` chunk's first half at offset 12. */
  lemma FmtHeadFields(w: seq<byte>)
    requires |w| >= 24 && w[12..24] == FmtHead()
    ensures w[12..16] == Ascii("fmt ") && U32At(w, 16) == 16 && U16At(w, 20) == 1 && U16At(w, 22) == 1
  {
    Pieces4(Ascii("fmt "), U32Bytes(16), U16Bytes(1), U16Bytes(1));
    SubSlice(w, 12, 12, 0, 4);
    SubSlice(w, 12, 12, 4, 8);
    SubSlice(w, 12, 12, 8, 10);
    SubSlice(w, 12, 12, 10, 12);
    U32Field(w, 16, 16);
    U16Field(w, 20, 1);
    U16Field(w, 22, 1);
  }

  /** The fields of the `fmt ` chunk's second half at offset 24. */
  lemma FmtTailFields(w: seq<byte>, sampleRate: int, byteRate: int, blockAlign: int)
    requires |w| >= 36 && w[24..36] == FmtTail(sampleRate, byteRate, blockAlign)
    ensures U32At(w, 24) == sampleRate % 0x1_0000_0000 && U32At(w, 28) == byteRate % 0x1_0000_0000
    ensures U16At(w, 32) == blockAlign % 0x1_0000 && U16At(w, 34) == 16
  {
    Pieces4(U32Bytes(sampleRate), U32Bytes(byteRate), U16Bytes(blockAlign), U16Bytes(16));
    SubSlice(w, 24, 12, 0, 4);
    SubSlice(w, 24, 12, 4, 8);
    SubSlice(w, 24, 12, 8, 10);
    SubSlice(w, 24, 12, 10, 12);
    RateFields(w, sampleRate, byteRate);
    U16Field(w, 32, blockAlign);
    U16Field(w, 34, 16);
  }

  lemma RateFields(w: seq<byte>, sampleRate: int, byteRate: int)
    requires |w| >= 32 && w[24..28] == U32Bytes(sampleRate) && w[28..32] == U32Bytes(byteRate)
    ensures U32At(w, 24) == sampleRate % 0x1_0000_0000 && U32At(w, 28) == byteRate % 0x1_0000_0000
  {
    U32Field(w, 24, sampleRate);
    U32Field(w, 28, byteRate);
  }

  /** The fields of a data chunk header at offset 36. */
  lemma DataFields(w: seq<byte>, dataLength: int)
    requires |w| >= 44 && w[36..44] == DataHeader(dataLength)
    ensures w[36..40] == Ascii("data") && U32At(w, 40) == dataLength % 0x1_0000_0000
  {
    SubSlice(w, 36, 8, 0, 4);
    SubSlice(w, 36, 8, 4, 8);
    U32Field(w, 40, dataLength);
  }

  /** The header fields sit at their RIFF/WAVE offsets: the tags at 0, 8, 12 and 36; the RIFF
      size (total length − 8) at 4; fmt size 16, format 1, one channel at 16, 20, 22; the
      sample rate at 24; byte rate (rate × block align) at 28; block align 2 at 32; 16 bits
      at 34; the data size 2N at 40. */
  lemma WavHeaderLayout(sampleRate: int, samples: seq<real>)
    requires 0 <= sampleRate < 0x8000_0000 && 36 + 2 * |samples| < 0x1_0000_0000
    ensures var w := WavBytes(sampleRate, samples);
      && |w| == 44 + 2 * |samples|
      && w[0..4] == Ascii("RIFF") && w[8..12] == Ascii("WAVE") && w[12..16] == Ascii("fmt ") && w[36..40] == Ascii("data")
      && U32At(w, 4) == |w| - 8
      && U32At(w, 16) == 16 && U16At(w, 20) == 1 && U16At(w, 22) == 1
      && U32At(w, 24) == sampleRate
      && U32At(w, 28) == sampleRate * U16At(w, 32) && U16At(w, 32) == 2
      && U16At(w, 34) == 16
      && U32At(w, 40) == 2 * |samples|
  {
    var n := 2 * |samples|;
    var w := WavBytes(sampleRate, samples);
    var r, fh, ft, d := RiffDescriptor(n), FmtHead(), FmtTail(sampleRate, sampleRate * 2, 2), DataHeader(n);
    var h := Header(sampleRate, n);
    assert h == r + fh + ft + d;
    Pieces4(r, fh, ft, d);
    assert w[..44] == h;
    SubSlice(w, 0, 44, 0, 12);
    SubSlice(w, 0, 44, 12, 24);
    SubSlice(w, 0, 44, 24, 36);
    SubSlice(w, 0, 44, 36, 44);
    RiffFields(w, n);
    FmtHeadFields(w);
    FmtTailFields(w, sampleRate, sampleRate * 2, 2);
    DataFields(w, n);
    ModSmall(36 + n, 0x1_0000_0000);
    ModSmall(sampleRate, 0x1_0000_0000);
    ModSmall(sampleRate * 2, 0x1_0000_0000);
    ModSmall(n, 0x1_0000_0000);
  }

  lemma ModSmall(x: int, m: int)
    requires 0 <= x < m
    ensures x % m == x
  {
  }

  /** Sample i is stored at offset 44 + 2i as its quantized 16-bit value. */
  lemma {:induction false} SampleBytesAt(samples: seq<real>, i: nat)
    requires i < |samples|
    ensures SampleBytes(samples)[2 * i..2 * i + 2] == SampleField(samples[i])
    decreases |samples|
  {
    var last := |samples| - 1;
    assert SampleBytes(samples) == SampleBytes(samples[..last]) + SampleField(samples[last]);
    if i < last {
      SampleBytesAt(samples[..last], i);
      assert samples[..last][i] == samples[i];
    }
  }

  lemma WavSampleLayout(sampleRate: int, samples: seq<real>, i: nat)
    requires i < |samples|
    ensures GeminiService.Int16At(WavBytes(sampleRate, samples), 22 + i) == Quantize(samples[i])
  {
    var w := WavBytes(sampleRate, samples);
    SampleBytesAt(samples, i);
    QuantizeRange(samples[i]);
    GeminiService.PcmRoundTrip([Quantize(samples[i])], 0);
    assert GeminiService.PcmBytes([Quantize(samples[i])]) == SampleField(samples[i]) by {
      assert [Quantize(samples[i])][1..] == [];
    }
    assert w[44 + 2 * i] == SampleField(samples[i])[0] && w[44 + 2 * i + 1] == SampleField(samples[i])[1];
  }

  // ---------------------------------------------------------------------------------
  // The writer

  /** Writes `bytes` into `view` starting at `offset` (`setUint8` per byte). */
  method Put(view: array<byte>, offset: nat, bytes: seq<byte>)
    requires offset + |bytes| <= view.Length
    modifies view
    ensures view[..offset + |bytes|] == old(view[..offset]) + bytes
    ensures view[offset + |bytes|..] == old(view[offset + |bytes|..])
  {
    for i := 0 to |bytes|
      invariant view[..offset] == old(view[..offset])
      invariant view[offset..offset + i] == bytes[..i]
      invariant view[offset + i..] == old(view[offset + i..])
    {
      view[offset + i] := bytes[i];
    }
    assert view[..offset + |bytes|] == view[..offset] + view[offset..offset + |bytes|];
  }

  /** Writes the RIFF descriptor at offset 0. */
  method WriteRiffDescriptor(view: array<byte>, dataLength: int)
    requires view.Length >= HeaderSize
    modifies view
    ensures view[..12] == RiffDescriptor(dataLength)
    ensures view[12..] == old(view[12..])
  {
    ghost var rest := view[12..];
    Put(view, 0, Ascii("RIFF"));
    assert view[12..] == rest;
    Put(view, 4, U32Bytes(36 + dataLength));
    assert view[12..] == rest;
    assert view[..8] == Ascii("RIFF") + U32Bytes(36 + dataLength);
    Put(view, 8, Ascii("WAVE"));
  }

  /** Writes the first half of the `fmt ` chunk at offset 12. */
  method WriteFmtHead(view: array<byte>)
    requires view.Length >= HeaderSize
    modifies view
    ensures view[..24] == old(view[..12]) + FmtHead()
    ensures view[24..] == old(view[24..])
  {
    ghost var front := view[..12];
    ghost var rest := view[24..];
    Put(view, 12, Ascii("fmt "));
    assert view[24..] == rest;
    Put(view, 16, U32Bytes(16));
    assert view[24..] == rest;
    assert view[..20] == front + Ascii("fmt ") + U32Bytes(16);
    Put(view, 20, U16Bytes(1));
    assert view[24..] == rest;
    Put(view, 22, U16Bytes(1));
    assert view[..24] == front + Ascii("fmt ") + U32Bytes(16) + U16Bytes(1) + U16Bytes(1);
  }

  /** Writes the second half of the `fmt ` chunk at offset 24. */
  method WriteFmtTail(view: array<byte>, sampleRate: int, byteRate: int, blockAlign: int)
    requires view.Length >= HeaderSize
    modifies view
    ensures view[..36] == old(view[..24]) + FmtTail(sampleRate, byteRate, blockAlign)
    ensures view[36..] == old(view[36..])
  {
    ghost var front := view[..24];
    ghost var rest := view[36..];
    Put(view, 24, U32Bytes(sampleRate));
    assert view[36..] == rest;
    Put(view, 28, U32Bytes(byteRate));
    assert view[36..] == rest;
    assert view[..32] == front + U32Bytes(sampleRate) + U32Bytes(byteRate);
    Put(view, 32, U16Bytes(blockAlign));
    assert view[36..] == rest;
    Put(view, 34, U16Bytes(16));
    assert view[..36] == front + U32Bytes(sampleRate) + U32Bytes(byteRate) + U16Bytes(blockAlign) + U16Bytes(16);
  }

  /** Writes the `fmt ` chunk at offset 12, field by field. */
  method WriteFmtChunk(view: array<byte>, sampleRate: int, byteRate: int, blockAlign: int)
    requires view.Length >= HeaderSize
    modifies view
    ensures view[..36] == old(view[..12]) + FmtChunk(sampleRate, byteRate, blockAlign)
    ensures view[36..] == old(view[36..])
  {
    WriteFmtHead(view);
    ghost var rest := view[36..];
    WriteFmtTail(view, sampleRate, byteRate, blockAlign);
    assert view[36..] == rest by {
      assert old(view[24..])[12..] == old(view[36..]);
    }
  }

  /** Writes the data chunk header at offset 36. */
  method WriteDataHeader(view: array<byte>, dataLength: int)
    requires view.Length >= HeaderSize
    modifies view
    ensures view[..44] == old(view[..36]) + DataHeader(dataLength)
    ensures view[44..] == old(view[44..])
  {
    Put(view, 36, Ascii("data"));
    Put(view, 40, U32Bytes(dataLength));
  }

  /** `bufferToWav`: a new zero-filled array of 44 + 2N bytes, the header written field by
      field, then each sample clamped, scaled and stored at an advancing offset. */
  method BufferToWav(buffer: GeminiService.AudioBuffer) returns (wav: array<byte>)
    requires |buffer.channels| >= 1
    ensures fresh(wav)
    ensures wav[..] == WavBytes(buffer.sampleRate, buffer.channels[0])
  {
    var channelData := buffer.channels[0];
    var sampleRate := buffer.sampleRate;
    var blockAlign := 1 * (16 / 8);
    var byteRate := sampleRate * blockAlign;
    var bufferLength := |channelData| * blockAlign;
    wav := new byte[44 + bufferLength](_ => 0);

    WriteRiffDescriptor(wav, bufferLength);
    WriteFmtChunk(wav, sampleRate, byteRate, blockAlign);
    WriteDataHeader(wav, bufferLength);
    assert wav[..44] == Header(sampleRate, bufferLength);

    var offset := 44;
    for i := 0 to |channelData|
      invariant offset == 44 + 2 * i
      invariant wav[..offset] == Header(sampleRate, bufferLength) + SampleBytes(channelData[..i])
    {
      Put(wav, offset, SampleField(channelData[i]));
      assert channelData[..i + 1][..i] == channelData[..i];
      offset := offset + 2;
    }
    assert channelData[..|channelData|] == channelData;
    assert wav[..] == wav[..offset];
  }

  // ---------------------------------------------------------------------------------
  // The view

  class SpeechLabView {
    var text: string
    var loading: bool
    /** The synthesized file behind `audioUrl` (the object URL of the WAV blob). */
    var audio: Option<seq<byte>>
    var manual: Option<string>
    var error: Option<string>

    constructor(initialText: string)
      ensures text == initialText && !loading && audio.None? && manual.None? && error.None?
    {
      text, loading, audio, manual, error := initialText, false, None, None, None;
    }

    /** The synchronous part of `handleSynthesize`: ignore a blank text or a run in
        progress; otherwise start loading with the audio, manual and error cleared. */
    method BeginSynthesize() returns (started: bool)
      modifies this
      ensures started <==> Text.Trim(old(text)) != "" && !old(loading)
      ensures started ==> loading && audio.None? && manual.None? && error.None? && text == old(text)
      ensures !started ==> loading == old(loading) && audio == old(audio) && manual == old(manual) && error == old(error) && text == old(text)
    {
      if Text.Trim(text) == "" || loading {
        return false;
      }
      loading := true;
      audio := None;
      manual := None;
      error := None;
      started := true;
    }

    /** The rest of `handleSynthesize`, given how the parallel speech and manual calls
        settled (`calls`: the speech base64 and the manual, or the first rejection's
        message) and the message a failing decode throws with. The manual is stored first;
        non-empty speech is decoded as 24 kHz mono PCM16 and written as WAV; any failure
        becomes the error. Loading ends in every case. */
    method FinishSynthesize(calls: Outcome<(string, string)>, decodeErrorMessage: string)
      modifies this
      ensures !loading && text == old(text)
      ensures calls.Rejected? ==> error == Some(MessageOr(calls.message, SynthesisFailed)) && manual == old(manual) && audio == old(audio)
      ensures calls.Resolved? ==> manual == Some(calls.value.1)
      ensures calls.Resolved? && calls.value.0 == "" ==> error == old(error) && audio == old(audio)
      ensures calls.Resolved? && calls.value.0 != "" ==>
        match SpeechSamples(calls.value.0)
        case Some(samples) => audio == Some(WavBytes(OutputSampleRate, samples)) && error == old(error)
        case None => audio == old(audio) && error == Some(MessageOr(decodeErrorMessage, SynthesisFailed))
    {
      match calls {
      case Rejected(message) =>
        error := Some(MessageOr(message, SynthesisFailed));
      case Resolved((base64Data, procedureDoc)) =>
        manual := Some(procedureDoc);
        if base64Data != "" {
          var buffer := DecodeSpeech(base64Data);
          if buffer.None? {
            error := Some(MessageOr(decodeErrorMessage, SynthesisFailed));
          } else {
            var wav := BufferToWav(buffer.value);
            audio := Some(wav[..]);
          }
        }
      }
      loading := false;
    }
  }

  /** `decodeAudioData(decode(base64Data), audioContext, 24000, 1)`; `None` when either
      call throws. */
  method DecodeSpeech(base64Data: string) returns (buffer: Option<GeminiService.AudioBuffer>)
    ensures buffer.Some? <==> SpeechSamples(base64Data).Some?
    ensures buffer.Some? ==>
      && |buffer.value.channels| == 1 && buffer.value.channels[0] == SpeechSamples(base64Data).value
      && buffer.value.sampleRate == OutputSampleRate
  {
    var bytes := GeminiService.Decode(base64Data);
    if bytes.None? {
      return None;
    }
    buffer := GeminiService.DecodeAudioData(bytes.value, OutputSampleRate, 1);
    if buffer.Some? {
      var data := bytes.value;
      assert buffer.value.channels[0] == SpeechSamples(base64Data).value by {
        forall i | 0 <= i < |data| / 2
          ensures buffer.value.channels[0][i] == SpeechSamples(base64Data).value[i]
        {
        }
      }
    }
  }

  /** The samples the speech data decodes to, or `None` when `decode` or `decodeAudioData`
      throws. */
  function SpeechSamples(base64Data: string): Option<seq<real>> {
    match Base64.Decode(base64Data)
    case None => None
    case Some(bytes) =>
      if |bytes| % 2 == 0 && |bytes| / 2 >= 1 then
        Some(seq(|bytes| / 2, i requires 0 <= i < |bytes| / 2 => GeminiService.ChannelSample(bytes, 1, 0, i)))
      else None
  }
}
