/** src/services/geminiService.ts: the bounded retry policy every one-shot model call goes
    through (`executeAiTask` with `createAiClient`), the base64 transport codec
    (`encode`/`decode`) and the PCM16 de-interleaver (`decodeAudioData`).
    The SDK call itself is an input: attempt `k` settles as `attempt(k)`. */
module GeminiService {
  import opened Wrappers
  import opened Types
  import Base64

  type byte = Base64.byte
  type int16 = v: int | -32768 <= v < 32768

  const KeyMissingMessage: string := "Critical Configuration Missing: VITE_GEMINI_API_KEY secret is not set."
  const LoadPeakMessage: string := "Architectural load peak reached. Retrying synthesis..."
  const EngineFailureMessage: string := "Synthesis Engine Failure"

  /** The default of `executeAiTask`'s `retryCount` parameter; no caller overrides it. */
  const DefaultRetryCount: nat := 2

  // ---------------------------------------------------------------------------------
  // createAiClient / executeAiTask

  /** `import.meta.env.VITE_GEMINI_API_KEY || process.env.API_KEY`, with an unset variable
      read as the empty string; `None` is the "Critical Configuration Missing" throw. */
  function ResolveApiKey(viteKey: string, envKey: string): (key: Option<string>)
    ensures key.None? <==> viteKey == "" && envKey == ""
    ensures key.Some? ==> key.value != "" && (key.value == viteKey || key.value == envKey)
    ensures viteKey != "" ==> key == Some(viteKey)
  {
    if viteKey != "" then Some(viteKey) else if envKey != "" then Some(envKey) else None
  }

  /** How one attempt of the task settled: a value, or an error with an optional HTTP
      status and a possibly empty message. */
  datatype Attempt<T> = Succeeded(value: T) | Failed(status: Option<int>, message: string)

  /** What `executeAiTask` resolves with or throws. */
  datatype TaskResult<T> = Returned(value: T) | Thrown(message: string)

  /** `error.status === 429 || error.status >= 500`; an absent status compares false. */
  predicate Retryable(status: Option<int>) {
    status.Some? && (status.value == 429 || status.value >= 500)
  }

  /** The message of the error surfaced after the last attempt. */
  function FailureMessage(status: Option<int>, message: string): string {
    if status == Some(429) then LoadPeakMessage else MessageOr(message, EngineFailureMessage)
  }

  /** The source's recursion, one level per attempt: attempt `k` with `retriesLeft` retries
      remaining. The result is paired with the number of attempts made in total. */
  function Retrying<T>(attempt: nat -> Attempt<T>, k: nat, retriesLeft: nat): (TaskResult<T>, nat)
    decreases retriesLeft
  {
    match attempt(k)
    case Succeeded(v) => (Returned(v), k + 1)
    case Failed(status, message) =>
      if retriesLeft > 0 && Retryable(status) then Retrying(attempt, k + 1, retriesLeft - 1)
      else (Thrown(FailureMessage(status, message)), k + 1)
  }

  /** `executeAiTask(task, retryCount)`: the client is created first, so a missing key
      throws before any attempt. */
  function ExecuteAiTaskSpec<T>(apiKey: Option<string>, attempt: nat -> Attempt<T>, retryCount: nat): (TaskResult<T>, nat) {
    if apiKey.None? then (Thrown(KeyMissingMessage), 0) else Retrying(attempt, 0, retryCount)
  }

  /** The retry policy as a loop over the attempts' outcomes. */
  method ExecuteAiTask<T>(apiKey: Option<string>, attempt: nat -> Attempt<T>, retryCount: nat)
    returns (result: TaskResult<T>, attempts: nat)
    ensures (result, attempts) == ExecuteAiTaskSpec(apiKey, attempt, retryCount)
  {
    if apiKey.None? {
      return Thrown(KeyMissingMessage), 0;
    }
    var k: nat, retriesLeft: nat := 0, retryCount;
    while true
      invariant Retrying(attempt, k, retriesLeft) == Retrying(attempt, 0, retryCount)
      decreases retriesLeft
    {
      match attempt(k)
      case Succeeded(v) =>
        return Returned(v), k + 1;
      case Failed(status, message) =>
        if retriesLeft > 0 && Retryable(status) {
          k, retriesLeft := k + 1, retriesLeft - 1;
        } else {
          return Thrown(FailureMessage(status, message)), k + 1;
        }
    }
  }

  /** From attempt `k` with `retriesLeft` retries: at least one and at most `retriesLeft + 1`
      further attempts; every attempt before the last failed with a retryable status; the
      last one either succeeded, failed with a status that is not retried, or used up the
      retries. */
  lemma {:induction false} RetryingAttempts<T>(attempt: nat -> Attempt<T>, k: nat, retriesLeft: nat)
    ensures var (_, n) := Retrying(attempt, k, retriesLeft);
      && k + 1 <= n <= k + retriesLeft + 1
      && (forall j :: k <= j < n - 1 ==> attempt(j).Failed? && Retryable(attempt(j).status))
      && (attempt(n - 1).Succeeded? || !Retryable(attempt(n - 1).status) || n == k + retriesLeft + 1)
    decreases retriesLeft
  {
    match attempt(k)
    case Succeeded(_) =>
    case Failed(status, _) =>
      if retriesLeft > 0 && Retryable(status) {
        RetryingAttempts(attempt, k + 1, retriesLeft - 1);
      }
  }

  /** The outcome depends only on the last attempt: its value is returned unchanged, or its
      error is surfaced with `FailureMessage`. */
  lemma {:induction false} RetryingResult<T>(attempt: nat -> Attempt<T>, k: nat, retriesLeft: nat)
    ensures var (r, n) := Retrying(attempt, k, retriesLeft);
      && n >= 1
      && match attempt(n - 1)
         case Succeeded(v) => r == Returned(v)
         case Failed(status, message) => r == Thrown(FailureMessage(status, message))
    decreases retriesLeft
  {
    match attempt(k)
    case Succeeded(_) =>
    case Failed(status, _) =>
      if retriesLeft > 0 && Retryable(status) {
        RetryingResult(attempt, k + 1, retriesLeft - 1);
      }
  }

  /** With the default retry count a task is attempted at most three times, and not at all
      when the key is missing. */
  lemma DefaultAttemptBound<T>(apiKey: Option<string>, attempt: nat -> Attempt<T>)
    ensures var (r, n) := ExecuteAiTaskSpec(apiKey, attempt, DefaultRetryCount);
      && n <= 3
      && (apiKey.None? <==> n == 0)
      && (apiKey.None? ==> r == Thrown(KeyMissingMessage))
  {
    RetryingAttempts(attempt, 0, DefaultRetryCount);
  }

  /** Two throttled attempts and then a success: the success is returned after exactly
      three attempts. */
  lemma ThrottledTwiceThenSuccess<T>(attempt: nat -> Attempt<T>, v: T, key: string)
    requires attempt(0) == Failed(Some(429), "") && attempt(1) == Failed(Some(429), "")
    requires attempt(2) == Succeeded(v)
    ensures ExecuteAiTaskSpec(Some(key), attempt, DefaultRetryCount) == (Returned(v), 3)
  {
  }

  /** Three server errors exhaust the retries: the third error's message surfaces after
      exactly three attempts. */
  lemma ServerErrorThreeTimes<T>(attempt: nat -> Attempt<T>, key: string, m: string)
    requires forall j :: 0 <= j < 3 ==> attempt(j) == Failed(Some(500), m)
    ensures ExecuteAiTaskSpec(Some(key), attempt, DefaultRetryCount) == (Thrown(MessageOr(m, EngineFailureMessage)), 3)
  {
    assert attempt(0) == Failed(Some(500), m) && attempt(1) == Failed(Some(500), m);
    assert attempt(2) == Failed(Some(500), m);
  }

  // ---------------------------------------------------------------------------------
  // encode / decode

  /** The "binary string" of a byte sequence: one character per byte, its code the byte. */
  function BinaryString(bytes: seq<byte>): (s: string)
    ensures |s| == |bytes| && forall i :: 0 <= i < |bytes| ==> s[i] as int == bytes[i]
  {
    seq(|bytes|, i requires 0 <= i < |bytes| => bytes[i] as char)
  }

  /** `btoa`: base64 of a binary string; `None` is the InvalidCharacterError thrown for a
      character above U+00FF. */
  function Btoa(binary: string): Option<string> {
    if forall i :: 0 <= i < |binary| ==> binary[i] as int < 256 then
      Some(Base64.Encode(seq(|binary|, i requires 0 <= i < |binary| => binary[i] as int)))
    else None
  }

  /** `atob`: the binary string a base64 text stands for; `None` is the InvalidCharacterError
      thrown for malformed input. */
  function Atob(text: string): Option<string> {
    match Base64.Decode(text)
    case None => None
    case Some(bytes) => Some(BinaryString(bytes))
  }

  /** `encode(bytes)`: build the binary string character by character, then `btoa` it. */
  method Encode(bytes: seq<byte>) returns (text: string)
    ensures text == Base64.Encode(bytes)
    ensures Base64.Decode(text) == Some(bytes)
  {
    var binary := "";
    for i := 0 to |bytes|
      invariant binary == BinaryString(bytes[..i])
    {
      binary := binary + [bytes[i] as char];
    }
    assert bytes[..|bytes|] == bytes;
    assert seq(|binary|, i requires 0 <= i < |binary| => binary[i] as int) == bytes;
    var encoded := Btoa(binary);
    text := encoded.value;
    Base64.DecodeEncode(bytes);
  }

  /** `decode(base64)`: `atob`, then one byte per character of the binary string, each
      byte the character's code. `None` is the exception `atob` throws. */
  method Decode(base64: string) returns (bytes: Option<seq<byte>>)
    ensures bytes == Base64.Decode(base64)
    ensures bytes.Some? <==> Atob(base64).Some?
    ensures bytes.Some? ==>
      && |bytes.value| == |Atob(base64).value|
      && forall i :: 0 <= i < |bytes.value| ==> bytes.value[i] == Atob(base64).value[i] as int
  {
    var binaryString := Atob(base64);
    if binaryString.None? {
      return None;
    }
    var binary := binaryString.value;
    var len := |binary|;
    var out := new byte[len];
    for i := 0 to len
      invariant forall j :: 0 <= j < i ==> out[j] == binary[j] as int
    {
      out[i] := binary[i] as int;
    }
    bytes := Some(out[..]);
    assert out[..] == Base64.Decode(base64).value;
  }

  // ---------------------------------------------------------------------------------
  // PCM16 little-endian samples

  /** The signed 16-bit value of a little-endian byte pair. */
  function Int16FromBytes(lo: byte, hi: byte): (v: int16) {
    var u := lo + 256 * hi;
    if u >= 32768 then u - 65536 else u
  }

  /** Element `k` of `new Int16Array(data.buffer)` (little-endian platform). */
  function Int16At(data: seq<byte>, k: nat): int16
    requires 2 * k + 1 < |data|
  {
    Int16FromBytes(data[2 * k], data[2 * k + 1])
  }

  /** The little-endian bytes of a 16-bit sample: `[low, high]` of its two's complement. */
  function Int16Bytes(v: int16): seq<byte> {
    var u := v % 65536;
    [u % 256, u / 256]
  }

  /** The bytes of an `Int16Array`'s buffer. */
  function PcmBytes(samples: seq<int16>): (bytes: seq<byte>)
    ensures |bytes| == 2 * |samples|
  {
    if samples == [] then [] else Int16Bytes(samples[0]) + PcmBytes(samples[1..])
  }

  /** Reading the buffer back as an `Int16Array` gives every sample unchanged. */
  lemma {:induction false} PcmRoundTrip(samples: seq<int16>, k: nat)
    requires k < |samples|
    ensures Int16At(PcmBytes(samples), k) == samples[k]
  {
    var bytes := PcmBytes(samples);
    if k == 0 {
      assert bytes[0..2] == Int16Bytes(samples[0]);
    } else {
      PcmRoundTrip(samples[1..], k - 1);
      assert bytes[2..] == PcmBytes(samples[1..]);
      assert bytes[2 * k] == PcmBytes(samples[1..])[2 * (k - 1)];
      assert bytes[2 * k + 1] == PcmBytes(samples[1..])[2 * (k - 1) + 1];
    }
  }

  // ---------------------------------------------------------------------------------
  // decodeAudioData

  /** An `AudioBuffer`: a sample rate and one sample array per channel, all of one length. */
  datatype AudioBuffer = AudioBuffer(sampleRate: int, channels: seq<seq<real>>)

  /** `createBuffer` accepts 1 to 32 channels, at least one frame, and a sample rate from
      3000 to 768000 Hz; it throws NotSupportedError otherwise. */
  predicate BufferShapeSupported(numChannels: int, frames: int, sampleRate: int) {
    1 <= numChannels <= 32 && frames >= 1 && 3000 <= sampleRate <= 768000
  }

  /** Frame `i` of channel `c` in interleaved PCM16 data, scaled to [-1, 1). */
  function ChannelSample(data: seq<byte>, numChannels: nat, c: nat, i: nat): real {
    var k := i * numChannels + c;
    if 2 * k + 1 < |data| then Int16At(data, k) as real / 32768.0 else 0.0
  }

  /** The interleaved index read for channel `c` of frame `i` is inside the Int16 view. */
  lemma FrameIndexInBounds(samples: nat, numChannels: nat, c: nat, i: nat)
    requires numChannels >= 1 && c < numChannels && i < samples / numChannels
    ensures i * numChannels + c < samples
  {
    var frames := samples / numChannels;
    assert i + 1 <= frames;
    assert (i + 1) * numChannels <= frames * numChannels by {
      MulMonotone(i + 1, frames, numChannels);
    }
    assert frames * numChannels <= samples;
  }

  lemma MulMonotone(a: nat, b: nat, m: nat)
    requires a <= b
    ensures a * m <= b * m
  {
  }

  /** `decodeAudioData(data, ctx, sampleRate, numChannels)`: view the bytes as Int16 samples,
      make a buffer of `len / numChannels` frames and fill channel `c` with samples
      `c, c + numChannels, c + 2 * numChannels, …` divided by 32768. `None` is a throw: an
      odd byte count (the Int16Array view) or a shape `createBuffer` refuses. */
  method DecodeAudioData(data: seq<byte>, sampleRate: int, numChannels: nat) returns (buffer: Option<AudioBuffer>)
    ensures buffer.Some? <==>
      && |data| % 2 == 0 && numChannels >= 1
      && BufferShapeSupported(numChannels, (|data| / 2) / numChannels, sampleRate)
    ensures buffer.Some? ==>
      && buffer.value.sampleRate == sampleRate
      && |buffer.value.channels| == numChannels
      && (forall c :: 0 <= c < numChannels ==> |buffer.value.channels[c]| == (|data| / 2) / numChannels)
      && (forall c, i :: 0 <= c < numChannels && 0 <= i < (|data| / 2) / numChannels ==>
            buffer.value.channels[c][i] == ChannelSample(data, numChannels, c, i))
  {
    if |data| % 2 != 0 || numChannels == 0 {
      return None;
    }
    var samples := |data| / 2;
    var frameCount := samples / numChannels;
    if !BufferShapeSupported(numChannels, frameCount, sampleRate) {
      return None;
    }
    var channels: seq<seq<real>> := [];
    for channel := 0 to numChannels
      invariant |channels| == channel
      invariant forall c :: 0 <= c < channel ==> |channels[c]| == frameCount
      invariant forall c, i :: 0 <= c < channel && 0 <= i < frameCount ==>
        channels[c][i] == ChannelSample(data, numChannels, c, i)
    {
      var channelData := new real[frameCount];
      for i := 0 to frameCount
        invariant forall j :: 0 <= j < i ==> channelData[j] == ChannelSample(data, numChannels, channel, j)
      {
        FrameIndexInBounds(samples, numChannels, channel, i);
        channelData[i] := Int16At(data, i * numChannels + channel) as real / 32768.0;
      }
      channels := channels + [channelData[..]];
    }
    buffer := Some(AudioBuffer(sampleRate, channels));
  }

  /** Every sample of a decoded buffer lies in [-1, 1). */
  lemma ChannelSampleRange(data: seq<byte>, numChannels: nat, c: nat, i: nat)
    ensures -1.0 <= ChannelSample(data, numChannels, c, i) < 1.0
  {
  }
}
