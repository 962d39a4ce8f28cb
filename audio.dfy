/** Values shared by the whole pipeline: the sink calls, the frame buffer, the
    Android formats and the engine handles the platform hands back. */
module Audio {

  datatype Option<+T> = None | Some(value: T)

  /** A Java `byte`. */
  type Byte = b: int | -128 <= b <= 127

  /** The `java.nio.ByteBuffer` a frame lives in; only its limit matters to the
      sinks (ByteBuffer.position rejects an offset beyond it). */
  datatype ByteBuffer = ByteBuffer(limit: int)

  /** One call on the AudioSink interface. */
  datatype Call =
    | Start(sampleRate: int, sampleBits: int, frameSize: int, numChannels: int)
    | Data(buffer: ByteBuffer, offset: int, size: int, timestamp: int)
    | Stop

  /** An exception that escapes a method of the core. */
  datatype JavaException = NullPointer | IllegalArgument | UnsupportedOperation

  /** What a Java method that returns a boolean and may throw ends with. */
  datatype Outcome = Returned(value: bool) | Threw(error: JavaException)

  /** android.media.AudioFormat encodings used by the core. */
  datatype Encoding = EncodingDefault | Pcm8 | Pcm16 | PcmFloat

  /** android.media.AudioFormat channel masks: the input masks a recorder takes and
      the output masks a track takes. */
  datatype ChannelMask = InMono | InStereo | OutMono | OutStereo

  /** AudioAttributes usage of a playback track. */
  datatype Usage = UsageMedia | UsageVoiceCommunication

  /** What a playback track is built with. `requestedSession` is present only when
      the builder was given an explicit session id. */
  datatype TrackConfig = TrackConfig(usage: Usage, sampleRate: int, encoding: Encoding,
                                     channels: ChannelMask, bufferSize: int,
                                     requestedSession: Option<int>)

  /** A built android.media.AudioTrack. */
  datatype Track = Track(config: TrackConfig, session: int)

  /** An android.media.audiofx.Visualizer attached to an audio session. */
  datatype Analyzer = Analyzer(session: int, captureSize: int, captureRate: int)

  /** What an android.media.AudioRecord is built with. */
  datatype RecorderConfig = RecorderConfig(audioSource: int, sampleRate: int, encoding: Encoding,
                                           channels: ChannelMask, bufferSize: int)

  /** A built android.media.AudioRecord. */
  datatype Recorder = Recorder(config: RecorderConfig, session: int)

  /** The capture-side enhancement effects, in the order they are attached. */
  datatype EffectKind = EchoCanceler | GainControl | NoiseSuppressor

  /** An enhancement effect created on a recorder session. */
  datatype Effect = Effect(kind: EffectKind, session: int)

  function Min(a: int, b: int): (r: int)
    ensures r <= a && r <= b && (r == a || r == b)
  {
    if a < b then a else b
  }

  function Max(a: int, b: int): (r: int)
    ensures r >= a && r >= b && (r == a || r == b)
  {
    if a < b then b else a
  }

  function Abs(a: int): (r: nat)
    ensures r == a || r == -a
  {
    if a < 0 then -a else a
  }

  /** Java's integer `/` by a positive divisor, which truncates toward zero
      (Dafny's `/` is Euclidean); every divisor in the core is a positive constant. */
  function Quot(a: int, b: int): (q: int)
    requires b > 0
    ensures 0 <= a ==> q == a / b
    ensures a < 0 ==> q == -((-a) / b)
  {
    if a >= 0 then a / b else -((-a) / b)
  }

  /** Java's `(int)` cast of a floating-point value, which truncates toward zero. */
  function Trunc(r: real): (i: int)
    ensures 0.0 <= r ==> i as real <= r < i as real + 1.0
    ensures r < 0.0 ==> i as real - 1.0 < r <= i as real
  {
    if r >= 0.0 then r.Floor else -((-r).Floor)
  }
}
