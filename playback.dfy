/** How the playback sink (AudioSinkPlayer.onStart) turns a stream format into
    AudioTrack parameters: channel mask, encoding, buffer size and session. */
module Playback {
  import opened Audio

  /** Byte.SIZE. */
  const BITS_PER_BYTE: int := 8
  /** Smallest frame size the fallback buffer is sized for. */
  const MIN_FRAME_SIZE: int := 480
  /** Number of frames the fallback buffer holds. */
  const FALLBACK_FRAMES: int := 8

  /** Output channel mask: output stereo exactly for two channels, output mono for
      anything else; never an input mask. */
  function OutChannels(numChannels: int): (m: ChannelMask)
    ensures m == OutStereo <==> numChannels == 2
    ensures m == OutMono <==> numChannels != 2
  {
    if numChannels == 2 then OutStereo else OutMono
  }

  /** Output encoding: 16 bits is PCM16, 32 bits is float, and every other width
      (8 included) falls back to PCM8; the default encoding is never chosen. */
  function OutEncoding(sampleBits: int): (e: Encoding)
    ensures e != EncodingDefault
    ensures e == Pcm16 <==> sampleBits == 16
    ensures e == PcmFloat <==> sampleBits == 32
    ensures e == Pcm8 <==> sampleBits != 16 && sampleBits != 32
  {
    match sampleBits
    case 16 => Pcm16
    case 32 => PcmFloat
    case _ => Pcm8
  }

  /** Usage of the track: voice communication for a voice-call player, media otherwise. */
  function TrackUsage(voiceCall: bool): Usage
  {
    if voiceCall then UsageVoiceCommunication else UsageMedia
  }

  /** Minimum buffer used when the platform cannot report one: eight frames of at
      least 480 samples, in Java int arithmetic (overflow aside). */
  function FallbackMinBufferSize(sampleBits: int, frameSize: int, numChannels: int): int
  {
    Quot(sampleBits, BITS_PER_BYTE) * Max(frameSize, MIN_FRAME_SIZE) * numChannels * FALLBACK_FRAMES
  }

  /** The minimum buffer the track is sized from: the platform's answer when it is
      positive, the fallback when the platform reports an error (zero or negative).
      For every width of at least 8 bits and at least one channel the fallback
      holds eight frames of at least 480 samples of every channel. */
  function MinBufferSize(platformMin: int, sampleBits: int, frameSize: int, numChannels: int): (r: int)
    ensures platformMin > 0 ==> r == platformMin
    ensures platformMin <= 0 ==> r == FallbackMinBufferSize(sampleBits, frameSize, numChannels)
    ensures platformMin <= 0 && sampleBits >= BITS_PER_BYTE && numChannels >= 1 ==>
      r >= FALLBACK_FRAMES * MIN_FRAME_SIZE * numChannels * (sampleBits / BITS_PER_BYTE) > 0
  {
    if platformMin <= 0 then
      var bytes := Quot(sampleBits, BITS_PER_BYTE);
      var frames := Max(frameSize, MIN_FRAME_SIZE);
      assert bytes >= 1 && numChannels >= 1 ==> bytes * frames * numChannels >= bytes * MIN_FRAME_SIZE * numChannels by {
        if bytes >= 1 && numChannels >= 1 {
          MulMonotone(bytes * numChannels, MIN_FRAME_SIZE, frames);
          assert bytes * frames * numChannels == (bytes * numChannels) * frames;
          assert bytes * MIN_FRAME_SIZE * numChannels == (bytes * numChannels) * MIN_FRAME_SIZE;
        }
      }
      FallbackMinBufferSize(sampleBits, frameSize, numChannels)
    else
      platformMin
  }

  lemma MulMonotone(k: int, a: int, b: int)
    requires k >= 0 && a <= b
    ensures k * a <= k * b
  {
  }

  /** The buffer size requested from the track builder: always twice the minimum,
      so always even, and positive for every width of at least 8 bits and at
      least one channel. */
  function TrackBufferSize(platformMin: int, sampleBits: int, frameSize: int, numChannels: int): (r: int)
    ensures r == 2 * MinBufferSize(platformMin, sampleBits, frameSize, numChannels)
    ensures r % 2 == 0
    ensures sampleBits >= BITS_PER_BYTE && numChannels >= 1 ==> r > 0
  {
    MinBufferSize(platformMin, sampleBits, frameSize, numChannels) * 2
  }

  /** The session id handed to the track builder: the provider's value only when it
      is positive; otherwise the platform generates one. */
  function RequestedSession(provided: int): (r: Option<int>)
    ensures r.Some? <==> provided > 0
    ensures r.Some? ==> r.value == provided
  {
    if provided > 0 then Some(provided) else None
  }

  /** With the pipeline's default stream (16-bit stereo, 1920-byte frames) and no
      platform minimum, the track asks for 122880 bytes. */
  lemma DefaultStreamFallback()
    ensures TrackBufferSize(-1, 16, 1920, 2) == 122880
  {
  }
}
