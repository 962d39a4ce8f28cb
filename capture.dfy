/** How the microphone source (AudioSourceMic) sizes its recorder and frames,
    and what its reader thread makes of a run of read results. */
module Capture {
  import opened Audio

  /** MediaRecorder.AudioSource.VOICE_COMMUNICATION. */
  const VOICE_COMMUNICATION: int := 7

  /** Input channel mask: input stereo exactly for two channels, input mono otherwise;
      never an output mask. */
  function InChannels(numChannels: int): (m: ChannelMask)
    ensures m == InStereo <==> numChannels == 2
    ensures m == InMono <==> numChannels != 2
  {
    if numChannels == 2 then InStereo else InMono
  }

  /** Input encoding: 8, 16 and 32 bits map to PCM8, PCM16 and float; any other
      width leaves the platform default. */
  function InEncoding(sampleBits: int): (e: Encoding)
    ensures e == EncodingDefault <==> sampleBits !in {8, 16, 32}
    ensures sampleBits == 8 ==> e == Pcm8
    ensures sampleBits == 16 ==> e == Pcm16
    ensures sampleBits == 32 ==> e == PcmFloat
  {
    match sampleBits
    case 8 => Pcm8
    case 16 => Pcm16
    case 32 => PcmFloat
    case _ => EncodingDefault
  }

  /** Bytes in one frame, `samplePerFrame * numChannels * sampleBits / 8` in Java int
      arithmetic (overflow aside). For whole-byte sample widths nothing is lost to
      the division: the frame is exactly samples times channels times bytes. */
  function FrameSize(samplePerFrame: int, numChannels: int, sampleBits: int): (r: int)
    ensures sampleBits in {8, 16, 32} && samplePerFrame >= 0 && numChannels >= 0 ==>
      r == samplePerFrame * numChannels * (sampleBits / 8)
  {
    Quot(samplePerFrame * numChannels * sampleBits, 8)
  }

  /** The pipeline's default stream, 480 samples of 16-bit stereo, is 1920 bytes a frame. */
  lemma DefaultFrameSize()
    ensures FrameSize(480, 2, 16) == 1920
  {
  }

  // ---------------------------------------------------------------------------
  // The reader loop, over the results the recorder's reads return.

  function Last<T>(s: seq<T>): T
    requires |s| > 0
  {
    s[|s| - 1]
  }

  /** Index of the first failed (negative) read, or the number of results when none failed. */
  function StopIndex(results: seq<int>): (k: nat)
    ensures k <= |results|
    ensures forall i :: 0 <= i < k ==> results[i] >= 0
    ensures k < |results| ==> results[k] < 0
  {
    if results == [] then 0
    else if results[0] < 0 then 0
    else 1 + StopIndex(results[1..])
  }

  /** How many reads the loop performs: up to and including the first failure. */
  function ReadsPerformed(results: seq<int>): (n: nat)
    ensures n <= |results|
    ensures n == |results| || (n > 0 && results[n - 1] < 0)
  {
    var k := StopIndex(results);
    if k < |results| then k + 1 else k
  }

  /** One `onData(buffer, 0, size, timestamp)` per positive result, in read order;
      zero results contribute nothing. `stamps[i]` is the clock at read `i`. */
  function Emit(results: seq<int>, stamps: seq<int>, buffer: ByteBuffer): seq<Call>
    requires |stamps| == |results|
  {
    if results == [] then []
    else
      var n := |results| - 1;
      Emit(results[..n], stamps[..n], buffer) +
      (if results[n] > 0 then [Data(buffer, 0, results[n], stamps[n])] else [])
  }

  /** One more read adds its frame, if it carried data. */
  lemma EmitStep(results: seq<int>, stamps: seq<int>, buffer: ByteBuffer, k: nat)
    requires |stamps| == |results| && k < |results|
    ensures Emit(results[..k + 1], stamps[..k + 1], buffer)
         == Emit(results[..k], stamps[..k], buffer) +
            (if results[k] > 0 then [Data(buffer, 0, results[k], stamps[k])] else [])
  {
    assert results[..k + 1][..k] == results[..k] && stamps[..k + 1][..k] == stamps[..k];
  }

  /** The calls the reader thread makes on its output, given everything the
      recorder would return: the positive results before the first failure. */
  function ReaderCalls(results: seq<int>, stamps: seq<int>, buffer: ByteBuffer): seq<Call>
    requires |stamps| == |results|
  {
    var k := StopIndex(results);
    Emit(results[..k], stamps[..k], buffer)
  }

  /** The positive entries of `s`, in order. */
  function Positives(s: seq<int>): seq<int>
  {
    if s == [] then []
    else Positives(s[..|s| - 1]) + (if Last(s) > 0 then [Last(s)] else [])
  }

  lemma {:induction false} EmitFrames(results: seq<int>, stamps: seq<int>, buffer: ByteBuffer)
    requires |stamps| == |results|
    ensures var calls := Emit(results, stamps, buffer);
      && (forall i :: 0 <= i < |calls| ==>
            calls[i].Data? && calls[i].buffer == buffer && calls[i].offset == 0 && calls[i].size > 0)
      && |calls| == |Positives(results)|
      && (forall i :: 0 <= i < |calls| ==> calls[i].size == Positives(results)[i])
  {
    if results != [] {
      var n := |results| - 1;
      EmitFrames(results[..n], stamps[..n], buffer);
      assert results[..n] == results[..|results| - 1];
    }
  }

  /** Every call the reader makes is `onData(buffer, 0, r, t)` with `r > 0`, and the
      sizes are exactly the positive results before the first failure, in order. */
  lemma ReaderCallsAreFrames(results: seq<int>, stamps: seq<int>, buffer: ByteBuffer)
    requires |stamps| == |results|
    ensures var calls := ReaderCalls(results, stamps, buffer);
      && (forall i :: 0 <= i < |calls| ==>
            calls[i].Data? && calls[i].buffer == buffer && calls[i].offset == 0 && calls[i].size > 0)
      && |calls| == |Positives(results[..StopIndex(results)])|
      && (forall i :: 0 <= i < |calls| ==> calls[i].size == Positives(results[..StopIndex(results)])[i])
  {
    var k := StopIndex(results);
    EmitFrames(results[..k], stamps[..k], buffer);
  }

  lemma {:induction false} EmitNothing(results: seq<int>, stamps: seq<int>, buffer: ByteBuffer)
    requires |stamps| == |results|
    requires forall i :: 0 <= i < |results| ==> results[i] == 0
    ensures Emit(results, stamps, buffer) == []
  {
    if results != [] {
      var n := |results| - 1;
      EmitNothing(results[..n], stamps[..n], buffer);
    }
  }

  /** Reads that return nothing produce no calls, and the loop keeps reading. */
  lemma ZeroReadsEmitNothing(results: seq<int>, stamps: seq<int>, buffer: ByteBuffer)
    requires |stamps| == |results|
    requires forall i :: 0 <= i < |results| ==> results[i] == 0
    ensures ReaderCalls(results, stamps, buffer) == []
    ensures ReadsPerformed(results) == |results|
  {
    var k := StopIndex(results);
    assert k == |results|;
    assert results[..k] == results && stamps[..k] == stamps;
    EmitNothing(results, stamps, buffer);
  }

  lemma {:induction false} StopIndexAppend(prefix: seq<int>, rest: seq<int>)
    requires StopIndex(prefix) < |prefix|
    ensures StopIndex(prefix + rest) == StopIndex(prefix)
  {
    if prefix[0] >= 0 {
      assert (prefix + rest)[1..] == prefix[1..] + rest;
      StopIndexAppend(prefix[1..], rest);
    }
  }

  /** Once a read fails the loop ends: whatever the recorder would have returned
      afterwards is never read and changes nothing. */
  lemma ReadsAfterFailureIgnored(prefix: seq<int>, rest: seq<int>, stamps: seq<int>, later: seq<int>, buffer: ByteBuffer)
    requires |stamps| == |prefix| && |later| == |rest|
    requires StopIndex(prefix) < |prefix|
    ensures ReadsPerformed(prefix + rest) == ReadsPerformed(prefix)
    ensures ReaderCalls(prefix + rest, stamps + later, buffer) == ReaderCalls(prefix, stamps, buffer)
  {
    StopIndexAppend(prefix, rest);
    var k := StopIndex(prefix);
    assert (prefix + rest)[..k] == prefix[..k];
    assert (stamps + later)[..k] == stamps[..k];
  }

  /** Reads of 3, 0, 5, -1 and 7 bytes: two frames, and the loop stops after the fourth read. */
  lemma ReaderExample(buffer: ByteBuffer)
    ensures ReaderCalls([3, 0, 5, -1, 7], [10, 20, 30, 40, 50], buffer)
         == [Data(buffer, 0, 3, 10), Data(buffer, 0, 5, 30)]
    ensures ReadsPerformed([3, 0, 5, -1, 7]) == 4
  {
    var results, stamps := [3, 0, 5, -1, 7], [10, 20, 30, 40, 50];
    assert StopIndex(results[3..]) == 0;
    assert StopIndex(results) == 3;
    assert results[..3] == [3, 0, 5] && stamps[..3] == [10, 20, 30];
    assert [3, 0, 5][..2] == [3, 0] && [10, 20, 30][..2] == [10, 20];
    assert [3, 0][..1] == [3] && [10, 20][..1] == [10];
    assert Emit([3], [10], buffer) == [Data(buffer, 0, 3, 10)];
    assert Emit([3, 0], [10, 20], buffer) == [Data(buffer, 0, 3, 10)];
  }
}
