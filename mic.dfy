/** AudioSourceMic: captures from the microphone through a platform recorder with
    echo cancellation, gain control and noise suppression attached, and pushes
    every frame its reader thread reads to one output sink. */
module Mic {
  import opened Audio
  import Capture
  import opened Sinks

  /** The reader thread, started with the frame size it reads. */
  datatype ReaderThread = ReaderThread(frameSize: int)

  /** The enhancement effects, in the order start attaches them. */
  const EFFECT_ORDER: seq<EffectKind> := [EchoCanceler, GainControl, NoiseSuppressor]

  /** What the recorder is built with for a stream format. */
  function PlannedRecorder(audioSource: int, sampleRate: int, sampleBits: int, numChannels: int,
                           answers: PlatformAnswers): (config: RecorderConfig)
    ensures config.audioSource == audioSource && config.sampleRate == sampleRate
    ensures config.encoding == Capture.InEncoding(sampleBits)
    ensures config.channels == Capture.InChannels(numChannels)
    ensures config.bufferSize ==
      2 * answers.recorderMinBufferSize(sampleRate, Capture.InChannels(numChannels), Capture.InEncoding(sampleBits))
  {
    var channels := Capture.InChannels(numChannels);
    var encoding := Capture.InEncoding(sampleBits);
    RecorderConfig(audioSource, sampleRate, encoding, channels,
                   2 * answers.recorderMinBufferSize(sampleRate, channels, encoding))
  }

  /** start failed before the recorder was in place: the build was rejected, or
      none was built and there was no earlier recorder. */
  predicate Unopened(outcome: Outcome)
  {
    outcome == Threw(IllegalArgument) || outcome == Threw(NullPointer)
  }

  /** An effect of `kind` is kept when the platform has it and creates it on the session. */
  predicate Attaches(answers: PlatformAnswers, kind: EffectKind, session: int)
  {
    answers.effectAvailable(kind) && answers.effectCreated(kind, session)
  }

  /** The effects attached to `session`, trying `kinds` in order. */
  function AttachedEffects(answers: PlatformAnswers, kinds: seq<EffectKind>, session: int): seq<Effect>
  {
    if kinds == [] then []
    else
      var n := |kinds| - 1;
      AttachedEffects(answers, kinds[..n], session) +
      (if Attaches(answers, kinds[n], session) then [Effect(kinds[n], session)] else [])
  }

  /** The platform calls attaching `kinds` makes: an enable for every kept effect
      that is not enabled by default. */
  function Enabling(answers: PlatformAnswers, kinds: seq<EffectKind>, session: int): seq<Event>
  {
    if kinds == [] then []
    else
      var n := |kinds| - 1;
      Enabling(answers, kinds[..n], session) +
      (if Attaches(answers, kinds[n], session) && !answers.effectEnabledByDefault(kinds[n])
       then [EffectEnabled(Effect(kinds[n], session))] else [])
  }

  /** One release per effect, in list order. */
  function Releases(effects: seq<Effect>): (r: seq<Event>)
    ensures |r| == |effects|
    ensures forall i :: 0 <= i < |r| ==> r[i] == EffectReleased(effects[i])
  {
    seq(|effects|, i requires 0 <= i < |effects| => EffectReleased(effects[i]))
  }

  /** The effects attached to a session are exactly the kinds the platform both
      offers and creates, each once, on that session, in the order tried. */
  lemma {:induction false} AttachedEffectsShape(answers: PlatformAnswers, kinds: seq<EffectKind>, session: int)
    ensures var attached := AttachedEffects(answers, kinds, session);
      && |attached| <= |kinds|
      && (forall e :: e in attached <==> e.session == session && e.kind in kinds && Attaches(answers, e.kind, session))
  {
    if kinds != [] {
      var n := |kinds| - 1;
      AttachedEffectsShape(answers, kinds[..n], session);
      assert kinds == kinds[..n] + [kinds[n]];
    }
  }

  /** The effect one kind contributes, and the enable it needs. */
  function Kept(answers: PlatformAnswers, kind: EffectKind, session: int): seq<Effect>
  {
    if Attaches(answers, kind, session) then [Effect(kind, session)] else []
  }

  function Enable(answers: PlatformAnswers, kind: EffectKind, session: int): seq<Event>
  {
    if Attaches(answers, kind, session) && !answers.effectEnabledByDefault(kind)
    then [EffectEnabled(Effect(kind, session))] else []
  }

  lemma UnfoldEffectOrder(answers: PlatformAnswers, session: int)
    ensures AttachedEffects(answers, EFFECT_ORDER, session)
         == Kept(answers, EchoCanceler, session) + Kept(answers, GainControl, session) + Kept(answers, NoiseSuppressor, session)
    ensures Enabling(answers, EFFECT_ORDER, session)
         == Enable(answers, EchoCanceler, session) + Enable(answers, GainControl, session) + Enable(answers, NoiseSuppressor, session)
  {
    var two, one: seq<EffectKind> := [EchoCanceler, GainControl], [EchoCanceler];
    assert EFFECT_ORDER[..2] == two && two[..1] == one && one[..0] == [];
    assert AttachedEffects(answers, one, session) == Kept(answers, EchoCanceler, session);
    assert Enabling(answers, one, session) == Enable(answers, EchoCanceler, session);
  }

  /** With every effect offered, created and enabled by default, all three are kept,
      in order, and none needs enabling. */
  lemma AllEffectsPresent(answers: PlatformAnswers, session: int)
    requires forall k :: answers.effectAvailable(k) && answers.effectCreated(k, session) && answers.effectEnabledByDefault(k)
    ensures AttachedEffects(answers, EFFECT_ORDER, session)
         == [Effect(EchoCanceler, session), Effect(GainControl, session), Effect(NoiseSuppressor, session)]
    ensures Enabling(answers, EFFECT_ORDER, session) == []
  {
    UnfoldEffectOrder(answers, session);
  }

  class AudioSourceMic {
    const audioSource: int
    var effects: seq<Effect>
    var output: Option<AudioSink>
    var recorder: Option<Recorder>
    var thread: Option<ReaderThread>

    constructor (audioSource: int)
      ensures this.audioSource == audioSource
      ensures effects == [] && output == None && recorder == None && thread == None
    {
      this.audioSource := audioSource;
      effects, output, recorder, thread := [], None, None, None;
    }

    /** The output chain is well formed, and neither the platform nor this source is
        part of it, so calls on it leave both alone. */
    ghost predicate Wired(pf: Platform)
      reads this
    {
      output.Some? ==> ValidSink(output.value) && pf !in Repr(output.value) && this !in Repr(output.value)
    }

    /** The objects a call on the output may update. */
    ghost function OutputRepr(): set<object>
      reads this
    {
      if output.Some? then Repr(output.value) else {}
    }

    method SetOutput(sink: Option<AudioSink>)
      modifies this
      ensures output == sink
      ensures effects == old(effects) && recorder == old(recorder) && thread == old(thread)
    {
      output := sink;
    }

    /** getSessionId: the recorder's session, and 0 while there is none. */
    function SessionId(): (r: int)
      reads this
      ensures recorder.None? ==> r == 0
      ensures recorder.Some? ==> r == recorder.value.session
    {
      if recorder.Some? then recorder.value.session else 0
    }

    /** Tries one enhancement effect on the session: kept if the platform offers and
        creates it, and enabled first unless it already is. */
    method AttachEffect(kind: EffectKind, session: int, pf: Platform)
      modifies this, pf
      ensures effects == old(effects) + (if Attaches(pf.answers, kind, session) then [Effect(kind, session)] else [])
      ensures pf.log == old(pf.log) +
        (if Attaches(pf.answers, kind, session) && !pf.answers.effectEnabledByDefault(kind)
         then [EffectEnabled(Effect(kind, session))] else [])
      ensures output == old(output) && recorder == old(recorder) && thread == old(thread)
    {
      if pf.answers.effectAvailable(kind) {
        if pf.answers.effectCreated(kind, session) {
          var effect := Effect(kind, session);
          if !pf.answers.effectEnabledByDefault(kind) {
            pf.log := pf.log + [EffectEnabled(effect)];
          }
          effects := effects + [effect];
        }
      }
    }

    /** Attaches the three effects in their fixed order. */
    method AttachEffects(session: int, pf: Platform)
      modifies this, pf
      ensures effects == old(effects) + AttachedEffects(pf.answers, EFFECT_ORDER, session)
      ensures pf.log == old(pf.log) + Enabling(pf.answers, EFFECT_ORDER, session)
      ensures output == old(output) && recorder == old(recorder) && thread == old(thread)
    {
      AttachEffect(EchoCanceler, session, pf);
      AttachEffect(GainControl, session, pf);
      AttachEffect(NoiseSuppressor, session, pf);
      UnfoldEffectOrder(pf.answers, session);
    }

    /** Builds the recorder for the format. A build the platform does not support is
        caught and leaves the previous recorder in place; a rejected configuration
        escapes as IllegalArgumentException. */
    method OpenRecorder(sampleRate: int, sampleBits: int, numChannels: int, pf: Platform) returns (escaped: bool)
      modifies this, pf
      ensures var config := PlannedRecorder(audioSource, sampleRate, sampleBits, numChannels, pf.answers);
        match pf.answers.recorderBuild(config)
        case RecorderBuilt(session) =>
          !escaped && recorder == Some(Recorder(config, session)) && pf.log == old(pf.log) + [RecorderCreated(recorder.value)]
        case RecorderUnsupported => !escaped && recorder == old(recorder) && pf.log == old(pf.log)
        case RecorderRejected => escaped && recorder == old(recorder) && pf.log == old(pf.log)
      ensures effects == old(effects) && output == old(output) && thread == old(thread)
    {
      var config := PlannedRecorder(audioSource, sampleRate, sampleBits, numChannels, pf.answers);
      match pf.answers.recorderBuild(config)
      case RecorderBuilt(session) =>
        recorder := Some(Recorder(config, session));
        pf.log := pf.log + [RecorderCreated(recorder.value)];
        escaped := false;
      case RecorderUnsupported =>
        escaped := false;
      case RecorderRejected =>
        escaped := true;
    }

    /** start: builds the recorder, attaches the effects, starts recording, then
        announces the stream to the output and starts the reader thread.

        The recorder is dereferenced before anything else changes, so a source left
        without one (the build was unsupported and none existed) throws
        NullPointerException with nothing done. If recording does not start the
        result is false and neither the output nor a thread is touched. Otherwise
        the output receives onStart with the frame size in bytes, the reader starts
        on that frame size, and the result is whether the recorder reports that it
        is recording. A track build that throws out of the output's onStart
        (UnsupportedOperationException) leaves start there: recording has started,
        the chain has been entered, but no reader thread is started. */
    method Start(sampleRate: int, sampleBits: int, samplePerFrame: int, numChannels: int, pf: Platform)
      returns (outcome: Outcome)
      requires Wired(pf)
      modifies this, pf, OutputRepr()
      ensures output == old(output) && Wired(pf)
      ensures var config := PlannedRecorder(audioSource, sampleRate, sampleBits, numChannels, pf.answers);
              var build := pf.answers.recorderBuild(config);
        && (build.RecorderBuilt? ==> recorder == Some(Recorder(config, build.session)))
        && (!build.RecorderBuilt? ==> recorder == old(recorder))
        && (build == RecorderRejected ==> outcome == Threw(IllegalArgument))
        && (build == RecorderUnsupported && old(recorder).None? ==> outcome == Threw(NullPointer))
        && (Unopened(outcome) <==> build == RecorderRejected || (build == RecorderUnsupported && old(recorder).None?))
      ensures Unopened(outcome) ==> effects == old(effects) && thread == old(thread) && pf.log == old(pf.log)
      ensures !Unopened(outcome) ==> recorder.Some?
      ensures !Unopened(outcome) ==>
        effects == old(effects) + AttachedEffects(pf.answers, EFFECT_ORDER, recorder.value.session)
      ensures !Unopened(outcome) ==>
        var build := pf.answers.recorderBuild(PlannedRecorder(audioSource, sampleRate, sampleBits, numChannels, pf.answers));
        var prepared := old(pf.log) + (if build.RecorderBuilt? then [RecorderCreated(recorder.value)] else []) +
                      Enabling(pf.answers, EFFECT_ORDER, recorder.value.session);
        if !pf.answers.recordingStarts then
          outcome == Returned(false) && thread == old(thread) && pf.log == prepared
        else
          var frameSize := Capture.FrameSize(samplePerFrame, numChannels, sampleBits);
          var call := Call.Start(sampleRate, sampleBits, frameSize, numChannels);
          var started := prepared + [RecordingStarted(recorder.value)];
          && |pf.log| >= |started|
          && pf.log[..|started|] == started
          && (outcome.Threw? ==>
                && outcome == Threw(UnsupportedOperation)
                && output.Some? && thread == old(thread)
                && Delivered(started, pf.log, output.value, call)
                && Escaped(pf.log, pf.answers))
          && (outcome.Returned? ==>
                && outcome == Returned(pf.answers.recordingAfterStart)
                && thread == Some(ReaderThread(frameSize))
                && |pf.log| > |started|
                && pf.log[|pf.log| - 1] == ReaderStarted(frameSize)
                && (output.None? ==> pf.log == started + [ReaderStarted(frameSize)])
                && (output.Some? ==>
                      && Delivered(started, pf.log[..|pf.log| - 1], output.value, call)
                      && !Escaped(pf.log[..|pf.log| - 1], pf.answers)))
    {
      var escaped := OpenRecorder(sampleRate, sampleBits, numChannels, pf);
      if escaped {
        return Threw(IllegalArgument);
      }
      if recorder.None? {
        return Threw(NullPointer);
      }
      assert old(pf.log) + [] == old(pf.log);
      outcome := Begin(sampleRate, sampleBits, samplePerFrame, numChannels, pf);
    }

    /** The rest of start once a recorder is in place: attaches the effects, starts
        recording and, if it started, launches the output and the reader. */
    method Begin(sampleRate: int, sampleBits: int, samplePerFrame: int, numChannels: int, pf: Platform)
      returns (outcome: Outcome)
      requires recorder.Some? && Wired(pf)
      modifies this, pf, OutputRepr()
      ensures output == old(output) && recorder == old(recorder) && Wired(pf)
      ensures !Unopened(outcome)
      ensures effects == old(effects) + AttachedEffects(pf.answers, EFFECT_ORDER, recorder.value.session)
      ensures var prepared := old(pf.log) + Enabling(pf.answers, EFFECT_ORDER, recorder.value.session);
        if !pf.answers.recordingStarts then
          outcome == Returned(false) && thread == old(thread) && pf.log == prepared
        else
          var frameSize := Capture.FrameSize(samplePerFrame, numChannels, sampleBits);
          var call := Call.Start(sampleRate, sampleBits, frameSize, numChannels);
          var started := prepared + [RecordingStarted(recorder.value)];
          && |pf.log| >= |started|
          && pf.log[..|started|] == started
          && (outcome.Threw? ==>
                && outcome == Threw(UnsupportedOperation)
                && output.Some? && thread == old(thread)
                && Delivered(started, pf.log, output.value, call)
                && Escaped(pf.log, pf.answers))
          && (outcome.Returned? ==>
                && outcome == Returned(pf.answers.recordingAfterStart)
                && thread == Some(ReaderThread(frameSize))
                && |pf.log| > |started|
                && pf.log[|pf.log| - 1] == ReaderStarted(frameSize)
                && (output.None? ==> pf.log == started + [ReaderStarted(frameSize)])
                && (output.Some? ==>
                      && Delivered(started, pf.log[..|pf.log| - 1], output.value, call)
                      && !Escaped(pf.log[..|pf.log| - 1], pf.answers)))
    {
      var session := recorder.value.session;
      AttachEffects(session, pf);
      if !pf.answers.recordingStarts {
        return Returned(false);
      }
      pf.log := pf.log + [RecordingStarted(recorder.value)];
      var frameSize := Capture.FrameSize(samplePerFrame, numChannels, sampleBits);
      var escapedStart := Launch(sampleRate, sampleBits, frameSize, numChannels, pf);
      if escapedStart {
        return Threw(UnsupportedOperation);
      }
      return Returned(pf.answers.recordingAfterStart);
    }

    /** The end of start once recording runs: announces the stream to the output,
        then starts the reader thread, unless the output's onStart threw. */
    method Launch(sampleRate: int, sampleBits: int, frameSize: int, numChannels: int, pf: Platform)
      returns (escaped: bool)
      requires Wired(pf)
      modifies this, pf, OutputRepr()
      ensures output == old(output) && recorder == old(recorder) && effects == old(effects) && Wired(pf)
      ensures var call := Call.Start(sampleRate, sampleBits, frameSize, numChannels);
        && |old(pf.log)| <= |pf.log| && pf.log[..|old(pf.log)|] == old(pf.log)
        && (escaped ==>
              && output.Some? && thread == old(thread)
              && Delivered(old(pf.log), pf.log, output.value, call)
              && Escaped(pf.log, pf.answers))
        && (!escaped ==>
              && thread == Some(ReaderThread(frameSize))
              && |pf.log| > |old(pf.log)|
              && pf.log[|pf.log| - 1] == ReaderStarted(frameSize)
              && (output.None? ==> pf.log == old(pf.log) + [ReaderStarted(frameSize)])
              && (output.Some? ==>
                    && Delivered(old(pf.log), pf.log[..|pf.log| - 1], output.value, call)
                    && !Escaped(pf.log[..|pf.log| - 1], pf.answers)))
    {
      escaped := false;
      if output.Some? {
        escaped := Deliver(output.value, Call.Start(sampleRate, sampleBits, frameSize, numChannels), pf);
        if escaped {
          return;
        }
      }
      ghost var announced := pf.log;
      thread := Some(ReaderThread(frameSize));
      pf.log := pf.log + [ReaderStarted(frameSize)];
      assert pf.log[..|pf.log| - 1] == announced;
    }

    /** The reader thread's loop. `results` are the values successive reads of one
        frame return until the thread is interrupted, `stamps` the clock at each.
        Every positive result is passed on as `onData(buffer, 0, size, stamp)` over a
        buffer of one frame; zero is skipped; the first negative result ends the
        loop. A negative frame size cannot be allocated: IllegalArgumentException
        escapes the thread before the loop, reported as `escaped`. Without a
        recorder the first read throws and is caught, so nothing is read either.
        Returns the number of reads made. */
    method RunReader(results: seq<int>, stamps: seq<int>, pf: Platform) returns (performed: nat, escaped: bool)
      requires thread.Some? && |stamps| == |results|
      requires Wired(pf)
      modifies pf, OutputRepr()
      ensures var frameSize := thread.value.frameSize;
              var reading := recorder.Some? && frameSize >= 0;
        && (escaped <==> frameSize < 0)
        && performed == (if reading then Capture.ReadsPerformed(results) else 0)
        && |old(pf.log)| <= |pf.log| && pf.log[..|old(pf.log)|] == old(pf.log)
        && Receipts(pf.log[|old(pf.log)|..]) ==
             (if reading && output.Some?
              then Fanout(Chain(output.value), Capture.ReaderCalls(results, stamps, ByteBuffer(frameSize)))
              else [])
    {
      var frameSize := thread.value.frameSize;
      escaped := frameSize < 0;
      if recorder.None? || frameSize < 0 {
        assert pf.log[|old(pf.log)|..] == [];
        return 0, escaped;
      }
      performed := ReadFrames(results, stamps, ByteBuffer(frameSize), pf);
    }

    /** The loop itself, over a buffer of one frame. */
    method ReadFrames(results: seq<int>, stamps: seq<int>, buffer: ByteBuffer, pf: Platform) returns (performed: nat)
      requires |stamps| == |results|
      requires Wired(pf)
      modifies pf, OutputRepr()
      ensures performed == Capture.ReadsPerformed(results)
      ensures |old(pf.log)| <= |pf.log| && pf.log[..|old(pf.log)|] == old(pf.log)
      ensures Receipts(pf.log[|old(pf.log)|..]) ==
        (if output.Some? then Fanout(Chain(output.value), Capture.ReaderCalls(results, stamps, buffer)) else [])
    {
      ghost var chain := if output.Some? then Chain(output.value) else [];
      ghost var start := pf.log;
      performed := 0;
      var failed := false;
      while performed < |results| && !failed
        invariant performed <= |results|
        invariant output == old(output) && Wired(pf)
        invariant |start| <= |pf.log| && pf.log[..|start|] == start
        invariant var k := if failed then performed - 1 else performed;
          && 0 <= k <= Capture.StopIndex(results)
          && (failed ==> k == Capture.StopIndex(results))
          && Receipts(pf.log[|start|..]) == Fanout(chain, Capture.Emit(results[..k], stamps[..k], buffer))
        decreases |results| - performed
      {
        var k := performed;
        var size := results[k];
        performed := performed + 1;
        if size < 0 {
          failed := true;
        } else {
          Capture.EmitStep(results, stamps, buffer, k);
          if size > 0 {
            PassOn(start, Capture.Emit(results[..k], stamps[..k], buffer), Data(buffer, 0, size, stamps[k]), pf);
          } else {
            assert Capture.Emit(results[..k + 1], stamps[..k + 1], buffer) == Capture.Emit(results[..k], stamps[..k], buffer);
          }
        }
      }
      if output.None? {
        EmptyFanout(Capture.ReaderCalls(results, stamps, buffer));
      }
    }

    /** Passes one frame the reader read on to the output, if there is one, after
        the calls `done` it has already passed since `start`. */
    method PassOn(ghost start: seq<Event>, ghost done: seq<Call>, call: Call, pf: Platform)
      requires call.Data? && Wired(pf)
      requires |start| <= |pf.log| && pf.log[..|start|] == start
      requires Receipts(pf.log[|start|..]) == Fanout(if output.Some? then Chain(output.value) else [], done)
      modifies pf, OutputRepr()
      ensures Wired(pf)
      ensures |start| <= |pf.log| && pf.log[..|start|] == start
      ensures Receipts(pf.log[|start|..]) == Fanout(if output.Some? then Chain(output.value) else [], done + [call])
    {
      if output.Some? {
        ghost var mid := pf.log;
        var _ := Deliver(output.value, call, pf);
        DeliveredAfterRun(start, mid, pf.log, output.value, done, call);
      } else {
        FanoutSnoc([], done, call);
      }
    }

    /** stop: stops the recorder, interrupts and joins the reader thread, stops the
        output, releases every effect in attach order and then the recorder. Every
        step runs whatever the earlier ones did, except that a source without a
        recorder throws NullPointerException at the first step, with nothing done. */
    method Stop(pf: Platform) returns (outcome: Outcome)
      requires Wired(pf)
      modifies this, pf, OutputRepr()
      ensures output == old(output) && Wired(pf)
      ensures old(recorder).None? ==>
        && outcome == Threw(NullPointer)
        && effects == old(effects) && recorder == old(recorder) && thread == old(thread) && pf.log == old(pf.log)
      ensures old(recorder).Some? ==>
        && outcome == Returned(true)
        && recorder == None && thread == None && effects == []
        && var stopped := old(pf.log) + [RecordingStopped(old(recorder).value)] +
                          (if old(thread).Some? then [ReaderJoined] else []);
           var releases := Releases(old(effects)) + [RecorderReleased(old(recorder).value)];
           && |pf.log| >= |stopped| + |releases|
           && pf.log[..|stopped|] == stopped
           && pf.log[|pf.log| - |releases|..] == releases
           && (output.None? ==> pf.log == stopped + releases)
           && (output.Some? ==> Delivered(stopped, pf.log[..|pf.log| - |releases|], output.value, Call.Stop))
    {
      if recorder.None? {
        return Threw(NullPointer);
      }
      var r := recorder.value;
      pf.log := pf.log + [RecordingStopped(r)];
      if thread.Some? {
        pf.log := pf.log + [ReaderJoined];
        thread := None;
      }
      ghost var stopped := pf.log;
      if output.Some? {
        var _ := Deliver(output.value, Call.Stop, pf);
      }
      ghost var delivered := pf.log;
      assert output.None? ==> delivered == stopped;
      ReleaseEffects(pf);
      pf.log := pf.log + [RecorderReleased(r)];
      recorder := None;
      assert pf.log == delivered + (Releases(old(effects)) + [RecorderReleased(r)]);
      assert pf.log[..|delivered|] == delivered;
      return Returned(true);
    }

    /** Releases every effect, in list order, and empties the list. */
    method ReleaseEffects(pf: Platform)
      modifies this, pf
      ensures effects == [] && pf.log == old(pf.log) + Releases(old(effects))
      ensures output == old(output) && recorder == old(recorder) && thread == old(thread)
    {
      var i := 0;
      while i < |effects|
        invariant 0 <= i <= |effects|
        invariant pf.log == old(pf.log) + Releases(effects[..i])
        invariant output == old(output) && recorder == old(recorder) && thread == old(thread) && effects == old(effects)
      {
        pf.log := pf.log + [EffectReleased(effects[i])];
        i := i + 1;
        assert Releases(effects[..i]) == Releases(effects[..i - 1]) + [EffectReleased(effects[i - 1])];
      }
      assert effects[..i] == effects;
      effects := [];
    }
  }

  /** No sink to reach: a run of calls enters nothing. */
  lemma {:induction false} EmptyFanout(calls: seq<Call>)
    ensures Fanout([], calls) == []
  {
    if calls != [] {
      EmptyFanout(calls[..|calls| - 1]);
    }
  }
}
