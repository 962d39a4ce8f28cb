/** ProtoPlayManager: builds the pipeline from a source factory and a sink
    factory, wraps a playback sink in the analysis tap, starts the source on the
    default stream, and relays the tap's analyses to one observer. */
module Manager {
  import opened Audio
  import Capture
  import Visualization
  import opened Sinks
  import opened Mic

  /** The stream the manager starts its source with. */
  const SAMPLE_RATE: int := 48000
  const SAMPLE_BITS: int := 16
  const SAMPLES_PER_FRAME: int := 480
  const CHANNELS: int := 2

  /** An AudioSource.Factory: a microphone source, or one defined outside the core. */
  datatype SourceFactory = MicFactory(audioSource: int) | ExternalSourceFactory(id: nat)

  /** An AudioSink.Factory: a playback sink, or one defined outside the core. */
  datatype SinkFactory = PlayerFactory(voiceCall: bool) | ExternalSinkFactory(id: nat)

  /** A created AudioSource. */
  datatype Source = MicSource(mic: AudioSourceMic) | ExternalSource(id: nat)

  /** The manager's Callback, the observer of the analyses. */
  datatype Observer = Observer(id: nat)

  /** The factories a new manager starts with: a voice-communication microphone,
      and a voice-call playback sink. */
  const DEFAULT_SOURCE: SourceFactory := MicFactory(Capture.VOICE_COMMUNICATION)
  const DEFAULT_SINK: SinkFactory := PlayerFactory(true)

  /** What the bridge from the tap to the observer does with one analysis: a WAV
      capture goes to onWavData, an FFT capture to onFftData, and any other tag, or
      no observer, goes nowhere. */
  function Observed(observer: Option<Observer>, tag: int, data: seq<real>): (r: seq<Event>)
    ensures |r| <= 1
    ensures r != [] <==> observer.Some? && (tag == Visualization.WAV || tag == Visualization.FFT)
    ensures r != [] && tag == Visualization.WAV ==> r == [WaveformObserved(data)]
    ensures r != [] && tag == Visualization.FFT ==> r == [SpectrumObserved(data)]
  {
    if observer.None? then []
    else if tag == Visualization.WAV then [WaveformObserved(data)]
    else if tag == Visualization.FFT then [SpectrumObserved(data)]
    else []
  }

  /** One waveform capture end to end: what the tap hands to the manager's bridge
      reaches the observer as onWavData, unchanged, one level in [0, 1] per
      captured byte. */
  lemma BridgeRelaysWaveform(tap: AudioSinkVisualizer, observer: Observer, waveform: seq<Byte>)
    ensures var handed := AnalysisDelivered(tap, ManagerBridge, Visualization.WAV, Visualization.Waveform(waveform));
            var r := Observed(Some(observer), handed.tag, handed.data);
      && r == [WaveformObserved(handed.data)]
      && |r[0].data| == |waveform|
      && forall i :: 0 <= i < |waveform| ==> 0.0 <= r[0].data[i] <= 1.0
  {
  }

  /** One spectrum capture end to end: what the tap hands to the manager's bridge
      reaches the observer as onFftData, unchanged, with n/2+1 magnitudes for n
      captured bytes, none negative when hypot is a true hypotenuse. */
  lemma BridgeRelaysSpectrum(tap: AudioSinkVisualizer, observer: Observer, fft: seq<Byte>, hypot: (int, int) -> real)
    requires |fft| >= 2
    ensures var handed := AnalysisDelivered(tap, ManagerBridge, Visualization.FFT, Visualization.Spectrum(fft, hypot));
            var r := Observed(Some(observer), handed.tag, handed.data);
      && r == [SpectrumObserved(handed.data)]
      && |r[0].data| == |fft| / 2 + 1
      && (Visualization.IsHypot(hypot) ==> forall k :: 0 <= k < |r[0].data| ==> r[0].data[k] >= 0.0)
  {
  }

  // ---------------------------------------------------------------------------
  // Reading a log around one delivery

  lemma QuietConcat(a: seq<Event>, b: seq<Event>)
    requires Quiet(a) && Quiet(b)
    ensures Quiet(a + b)
  {
    assert forall i :: |a| <= i < |a + b| ==> (a + b)[i] == b[i - |a|];
  }

  /** Enabling effects never enters a sink. */
  lemma {:induction false} EnablingQuiet(answers: PlatformAnswers, kinds: seq<EffectKind>, session: int)
    ensures Quiet(Enabling(answers, kinds, session))
  {
    if kinds != [] {
      var n := |kinds| - 1;
      EnablingQuiet(answers, kinds[..n], session);
      QuietConcat(Enabling(answers, kinds[..n], session), Enable(answers, kinds[n], session));
    }
  }

  /** A log that grows by platform calls, one delivery of `c` on `s`, and more
      platform calls records exactly the entries of that delivery. */
  lemma DeliveredBetween(base: seq<Event>, mid: seq<Event>, after: seq<Event>, log: seq<Event>, s: AudioSink, c: Call)
    requires |base| <= |mid| && mid[..|base|] == base && Quiet(mid[|base|..])
    requires Delivered(mid, after, s, c)
    requires |after| <= |log| && log[..|after|] == after && Quiet(log[|after|..])
    ensures |base| <= |log| && log[..|base|] == base
    ensures Receipts(log[|base|..]) == Entries(Chain(s), c)
  {
    assert log[|base|..] == mid[|base|..] + after[|mid|..] + log[|after|..];
    ReceiptsAppend(mid[|base|..] + after[|mid|..], log[|after|..]);
    ReceiptsAppend(mid[|base|..], after[|mid|..]);
    ReceiptsQuiet(mid[|base|..]);
    ReceiptsQuiet(log[|after|..]);
  }

  /** A log that grows by platform calls only records no entry. */
  lemma GrewQuietly(base: seq<Event>, log: seq<Event>)
    requires |base| <= |log| && log[..|base|] == base && Quiet(log[|base|..])
    ensures Receipts(log[|base|..]) == []
  {
    ReceiptsQuiet(log[|base|..]);
  }

  /** The pipeline's orchestrator. */
  class ProtoPlayManager {
    var sourceFactory: Option<SourceFactory>
    var sinkFactory: Option<SinkFactory>
    var source: Option<Source>
    var sink: Option<AudioSink>
    var callback: Option<Observer>

    constructor ()
      ensures sourceFactory == Some(DEFAULT_SOURCE) && sinkFactory == Some(DEFAULT_SINK)
      ensures source == None && sink == None && callback == None
    {
      sourceFactory, sinkFactory := Some(DEFAULT_SOURCE), Some(DEFAULT_SINK);
      source, sink, callback := None, None, None;
    }

    /** The microphone source, if that is what the manager holds. */
    function Mic(): Option<AudioSourceMic>
      reads this
    {
      if source.Some? && source.value.MicSource? then Some(source.value.mic) else None
    }

    /** The objects stopping the source may update. */
    ghost function SourceRepr(): set<object>
      reads this, if Mic().Some? then {Mic().value} else {}
    {
      if Mic().Some? then {Mic().value} + Mic().value.OutputRepr() else {}
    }

    /** A microphone source is wired to a well-formed output that holds neither
        the platform, the microphone, nor the manager. */
    ghost predicate Ready(pf: Platform)
      reads this, if Mic().Some? then {Mic().value} else {}
    {
      Mic().Some? ==> Mic().value.Wired(pf) && this !in Mic().value.OutputRepr()
    }

    method SetSourceFactory(factory: Option<SourceFactory>)
      modifies this
      ensures sourceFactory == factory
      ensures sinkFactory == old(sinkFactory) && source == old(source) && sink == old(sink) && callback == old(callback)
    {
      sourceFactory := factory;
    }

    method SetSink(factory: Option<SinkFactory>)
      modifies this
      ensures sinkFactory == factory
      ensures sourceFactory == old(sourceFactory) && source == old(source) && sink == old(sink) && callback == old(callback)
    {
      sinkFactory := factory;
    }

    method SetCallback(observer: Option<Observer>)
      modifies this
      ensures callback == observer
      ensures sourceFactory == old(sourceFactory) && sinkFactory == old(sinkFactory) && source == old(source) && sink == old(sink)
    {
      callback := observer;
    }

    /** The bridge the tap is given: relays one analysis to the observer. */
    method OnAnalysis(tag: int, data: seq<real>, pf: Platform)
      modifies pf
      ensures pf.log == old(pf.log) + Observed(callback, tag, data)
    {
      if callback.Some? {
        if tag == Visualization.WAV {
          pf.log := pf.log + [WaveformObserved(data)];
        } else if tag == Visualization.FFT {
          pf.log := pf.log + [SpectrumObserved(data)];
        }
      }
    }

    /** start: creates the source and the sink, wires the sink to the source and
        starts the source on 48 kHz 16-bit stereo in 480-sample frames. Whatever the
        source answers, the result is true; an exception the source throws passes
        through. Every sink of the chain is entered with onStart exactly once, with
        1920-byte frames, when the microphone starts recording; a track build that
        throws out of that onStart (UnsupportedOperationException) passes through
        too, and no reader thread is started. */
    method Start(pf: Platform) returns (outcome: Outcome)
      modifies this, pf
      ensures sourceFactory == old(sourceFactory) && sinkFactory == old(sinkFactory) && callback == old(callback)
      ensures Ready(pf)
      ensures sourceFactory.None? ==> source.None?
      ensures sourceFactory.Some? && sourceFactory.value.ExternalSourceFactory? ==>
        source == Some(ExternalSource(sourceFactory.value.id))
      ensures sourceFactory.Some? && sourceFactory.value.MicFactory? ==>
        Mic().Some? && fresh(Mic().value) &&
        Mic().value.audioSource == sourceFactory.value.audioSource && Mic().value.output == sink
      ensures sinkFactory.None? ==> sink.None?
      ensures sinkFactory.Some? && sinkFactory.value.ExternalSinkFactory? ==>
        sink == Some(ExternalSink(sinkFactory.value.id))
      ensures sinkFactory.Some? && sinkFactory.value.PlayerFactory? ==>
        && sink.Some? && sink.value.VisualizerSink? && fresh(sink.value.visualizer)
        && var tap := sink.value.visualizer;
           && tap.inner.Some? && tap.inner.value.PlayerSink? && fresh(tap.inner.value.player)
           && tap.inner.value.player.voiceCall == sinkFactory.value.voiceCall
           && Chain(sink.value) == [sink.value, tap.inner.value]
      ensures source.None? ==> outcome == Returned(true) && pf.log == old(pf.log)
      ensures source.Some? && source.value.ExternalSource? ==>
        && outcome == Returned(true)
        && pf.log == old(pf.log) + [SourceOutputSet(source.value.id, sink),
                                    SourceStarted(source.value.id, SAMPLE_RATE, SAMPLE_BITS, SAMPLES_PER_FRAME, CHANNELS)]
      ensures Mic().Some? ==>
        var m := Mic().value;
        var config := PlannedRecorder(m.audioSource, SAMPLE_RATE, SAMPLE_BITS, CHANNELS, pf.answers);
        var build := pf.answers.recorderBuild(config);
        && (build == RecorderRejected ==> outcome == Threw(IllegalArgument) && pf.log == old(pf.log))
        && (build == RecorderUnsupported ==> outcome == Threw(NullPointer) && pf.log == old(pf.log))
        && (build.RecorderBuilt? ==>
              && m.recorder == Some(Recorder(config, build.session))
              && |old(pf.log)| <= |pf.log| && pf.log[..|old(pf.log)|] == old(pf.log)
              && (TracksSupported(pf.answers) ==> outcome == Returned(true))
              && (pf.answers.recordingStarts ==>
                    && Receipts(pf.log[|old(pf.log)|..]) ==
                       (if sink.Some? then Entries(Chain(sink.value), Call.Start(SAMPLE_RATE, SAMPLE_BITS, 1920, CHANNELS))
                        else [])
                    && (outcome == Threw(UnsupportedOperation) <==> sink.Some? && Escaped(pf.log, pf.answers))
                    && (outcome.Threw? ==> outcome == Threw(UnsupportedOperation) && m.thread == None)
                    && (outcome.Returned? ==> outcome == Returned(true) && m.thread == Some(ReaderThread(1920))))
              && (!pf.answers.recordingStarts ==>
                    outcome == Returned(true) && m.thread == None && Receipts(pf.log[|old(pf.log)|..]) == []))
    {
      source := CreateSource(sourceFactory);
      sink := CreateSink(sinkFactory);
      outcome := Returned(true);
      match source {
        case None =>
        case Some(ExternalSource(id)) =>
          pf.log := pf.log + [SourceOutputSet(id, sink), SourceStarted(id, SAMPLE_RATE, SAMPLE_BITS, SAMPLES_PER_FRAME, CHANNELS)];
        case Some(MicSource(m)) =>
          outcome := StartMic(m, sink, pf);
          if TracksSupported(pf.answers) {
            SupportedTracksNeverEscape(pf.log, pf.answers);
          }
      }
    }

    /** stop: stops the source, if there is one, then drops the sink; the source
        is kept. The result is true, unless the microphone throws because it never
        opened a recorder, in which case the sink is kept too. Every sink of the
        output chain is entered with onStop exactly once. */
    method Stop(pf: Platform) returns (outcome: Outcome)
      requires Ready(pf)
      modifies this, pf, SourceRepr()
      ensures source == old(source) && sourceFactory == old(sourceFactory) && sinkFactory == old(sinkFactory)
      ensures callback == old(callback) && Ready(pf)
      ensures source.None? ==> outcome == Returned(true) && sink.None? && pf.log == old(pf.log)
      ensures source.Some? && source.value.ExternalSource? ==>
        outcome == Returned(true) && sink.None? && pf.log == old(pf.log) + [SourceStopped(source.value.id)]
      ensures Mic().Some? && old(Mic().value.recorder).None? ==>
        outcome == Threw(NullPointer) && sink == old(sink) && pf.log == old(pf.log)
      ensures Mic().Some? && old(Mic().value.recorder).Some? ==>
        var m := Mic().value;
        && outcome == Returned(true) && sink.None?
        && m.recorder.None? && m.thread.None? && m.effects == []
        && |old(pf.log)| <= |pf.log| && pf.log[..|old(pf.log)|] == old(pf.log)
        && Receipts(pf.log[|old(pf.log)|..]) ==
           (if m.output.Some? then Entries(Chain(m.output.value), Call.Stop) else [])
    {
      outcome := Returned(true);
      match source {
        case None =>
        case Some(ExternalSource(id)) =>
          pf.log := pf.log + [SourceStopped(id)];
        case Some(MicSource(m)) =>
          outcome := StopMic(m, pf);
          if outcome.Threw? {
            return;
          }
      }
      sink := None;
    }
  }

  /** The microphone branch of start: wire the output, then start on the default
      stream; an exception passes through, including one that escapes the output's
      onStart, and any other answer becomes true. */
  method StartMic(m: AudioSourceMic, sink: Option<AudioSink>, pf: Platform) returns (outcome: Outcome)
    requires m.output.None? && m.recorder.None? && m.thread.None?
    requires sink.Some? ==> ValidSink(sink.value) && pf !in Repr(sink.value) && m !in Repr(sink.value)
    modifies m, pf, if sink.Some? then Repr(sink.value) else {}
    ensures m.output == sink && m.Wired(pf)
    ensures var config := PlannedRecorder(m.audioSource, SAMPLE_RATE, SAMPLE_BITS, CHANNELS, pf.answers);
            var build := pf.answers.recorderBuild(config);
      && (build == RecorderRejected ==> outcome == Threw(IllegalArgument) && pf.log == old(pf.log))
      && (build == RecorderUnsupported ==> outcome == Threw(NullPointer) && pf.log == old(pf.log))
      && (build.RecorderBuilt? ==>
            && m.recorder == Some(Recorder(config, build.session))
            && |old(pf.log)| <= |pf.log| && pf.log[..|old(pf.log)|] == old(pf.log)
                  && (pf.answers.recordingStarts ==>
                  && Receipts(pf.log[|old(pf.log)|..]) ==
                     (if sink.Some? then Entries(Chain(sink.value), Call.Start(SAMPLE_RATE, SAMPLE_BITS, 1920, CHANNELS))
                      else [])
                  && (outcome == Threw(UnsupportedOperation) <==> sink.Some? && Escaped(pf.log, pf.answers))
                  && (outcome.Threw? ==> outcome == Threw(UnsupportedOperation) && m.thread == None)
                  && (outcome.Returned? ==> outcome == Returned(true) && m.thread == Some(ReaderThread(1920))))
            && (!pf.answers.recordingStarts ==>
                  outcome == Returned(true) && m.thread == None && Receipts(pf.log[|old(pf.log)|..]) == []))
  {
    ghost var before := pf.log;
    m.SetOutput(sink);
    outcome := m.Start(SAMPLE_RATE, SAMPLE_BITS, SAMPLES_PER_FRAME, CHANNELS, pf);
    if Unopened(outcome) {
      return;
    }
    Capture.DefaultFrameSize();
    MicStarted(before, pf.log, pf.answers, m.recorder.value, sink, outcome, m.thread,
               pf.answers.recorderBuild(PlannedRecorder(m.audioSource, SAMPLE_RATE, SAMPLE_BITS, CHANNELS, pf.answers)).RecorderBuilt?,
               Call.Start(SAMPLE_RATE, SAMPLE_BITS, 1920, CHANNELS), 1920);
    if outcome.Returned? {
      outcome := Returned(true);
    }
  }

  /** The microphone branch of stop. */
  method StopMic(m: AudioSourceMic, pf: Platform) returns (outcome: Outcome)
    requires m.Wired(pf)
    modifies m, pf, m.OutputRepr()
    ensures m.output == old(m.output) && m.Wired(pf)
    ensures old(m.recorder).None? ==> outcome == Threw(NullPointer) && pf.log == old(pf.log)
    ensures old(m.recorder).Some? ==>
      && outcome == Returned(true)
      && m.recorder.None? && m.thread.None? && m.effects == []
      && |old(pf.log)| <= |pf.log| && pf.log[..|old(pf.log)|] == old(pf.log)
      && Receipts(pf.log[|old(pf.log)|..]) ==
         (if m.output.Some? then Entries(Chain(m.output.value), Call.Stop) else [])
  {
    ghost var before := pf.log;
    ghost var thread := m.thread;
    ghost var effects := m.effects;
    outcome := m.Stop(pf);
    if outcome.Threw? {
      return;
    }
    ghost var recorder := old(m.recorder).value;
    ghost var joined := [RecordingStopped(recorder)] + (if thread.Some? then [ReaderJoined] else []);
    ghost var stopped := before + joined;
    assert stopped[|before|..] == joined;
    ghost var releases := Releases(effects) + [RecorderReleased(recorder)];
    QuietConcat(Releases(effects), [RecorderReleased(recorder)]);
    AroundDelivery(before, stopped, pf.log, |releases|, m.output, Call.Stop);
  }

  /** Creates the source: nothing without a factory. */
  method CreateSource(factory: Option<SourceFactory>) returns (source: Option<Source>)
    ensures factory.None? ==> source.None?
    ensures factory.Some? && factory.value.ExternalSourceFactory? ==> source == Some(ExternalSource(factory.value.id))
    ensures factory.Some? && factory.value.MicFactory? ==>
      && source.Some? && source.value.MicSource? && fresh(source.value.mic)
      && var m := source.value.mic;
         m.audioSource == factory.value.audioSource && m.output.None? && m.recorder.None? && m.thread.None? && m.effects == []
  {
    match factory
    case None => source := None;
    case Some(ExternalSourceFactory(id)) => source := Some(ExternalSource(id));
    case Some(MicFactory(audioSource)) =>
      var m := new AudioSourceMic(audioSource);
      source := Some(MicSource(m));
  }

  /** Creates the sink: nothing without a factory; a playback sink comes wrapped in
      the analysis tap, whose analyzer follows the player's session and whose
      analyses go to the manager's bridge. */
  method CreateSink(factory: Option<SinkFactory>) returns (sink: Option<AudioSink>)
    ensures sink.Some? ==> ValidSink(sink.value) && fresh(Repr(sink.value))
    ensures factory.None? ==> sink.None?
    ensures factory.Some? && factory.value.ExternalSinkFactory? ==> sink == Some(ExternalSink(factory.value.id))
    ensures factory.Some? && factory.value.PlayerFactory? ==>
      && sink.Some? && sink.value.VisualizerSink?
      && var tap := sink.value.visualizer;
         && tap.inner.Some? && tap.inner.value.PlayerSink?
         && var player := tap.inner.value.player;
            && fresh(tap) && fresh(player)
            && player.voiceCall == factory.value.voiceCall && player.track.None? && !player.released
            && tap.provider == Some(PlayerSession(player)) && tap.callback == Some(ManagerBridge) && tap.analyzer.None?
            && Chain(sink.value) == [sink.value, tap.inner.value]
  {
    match factory
    case None => sink := None;
    case Some(ExternalSinkFactory(id)) => sink := Some(ExternalSink(id));
    case Some(PlayerFactory(voiceCall)) =>
      var player := new AudioSinkPlayer(voiceCall);
      assert ValidSink(PlayerSink(player));
      var tap := new AudioSinkVisualizer(Some(PlayerSink(player)));
      tap.SetSessionProvider(Some(PlayerSession(player)));
      tap.SetCallback(Some(ManagerBridge));
      sink := Some(VisualizerSink(tap));
      assert ValidSink(sink.value) by {
        assert tap.Valid();
      }
  }

  /** A log that grows by platform calls to `mid`, then by a delivery of `c` on
      the output (if there is one), then by `tail` more platform calls, records
      exactly the output chain's entries for `c`. */
  /** Reading what the microphone's start did once it had a recorder: past the
      quiet opening events and the start of recording lies one delivery of `call`
      to the output, if there is one, and the start threw exactly when that
      delivery ended in an escaped track build. */
  lemma MicStarted(before: seq<Event>, log: seq<Event>, answers: PlatformAnswers, recorder: Recorder,
                   sink: Option<AudioSink>, outcome: Outcome, thread: Option<ReaderThread>,
                   built: bool, call: Call, frameSize: int)
    requires !Unopened(outcome)
    requires var prepared := before + (if built then [RecorderCreated(recorder)] else []) +
                             Enabling(answers, EFFECT_ORDER, recorder.session);
      if !answers.recordingStarts then
        outcome == Returned(false) && thread == None && log == prepared
      else
        var started := prepared + [RecordingStarted(recorder)];
        && |log| >= |started|
        && log[..|started|] == started
        && (outcome.Threw? ==>
              && outcome == Threw(UnsupportedOperation)
              && sink.Some? && thread == None
              && Delivered(started, log, sink.value, call)
              && Escaped(log, answers))
        && (outcome.Returned? ==>
              && thread == Some(ReaderThread(frameSize))
              && |log| > |started|
              && log[|log| - 1] == ReaderStarted(frameSize)
              && (sink.None? ==> log == started + [ReaderStarted(frameSize)])
              && (sink.Some? ==> Delivered(started, log[..|log| - 1], sink.value, call)))
    ensures |before| <= |log| && log[..|before|] == before
    ensures answers.recordingStarts ==>
      && Receipts(log[|before|..]) == (if sink.Some? then Entries(Chain(sink.value), call) else [])
      && (outcome.Threw? <==> sink.Some? && Escaped(log, answers))
      && (outcome.Threw? ==> outcome == Threw(UnsupportedOperation) && thread == None)
      && (outcome.Returned? ==> thread == Some(ReaderThread(frameSize)))
    ensures !answers.recordingStarts ==> outcome.Returned? && thread == None && Receipts(log[|before|..]) == []
  {
    var created := if built then [RecorderCreated(recorder)] else [];
    var enabling := Enabling(answers, EFFECT_ORDER, recorder.session);
    EnablingQuiet(answers, EFFECT_ORDER, recorder.session);
    QuietConcat(created, enabling);
    var prepared := before + created + enabling;
    assert prepared[|before|..] == created + enabling;
    if !answers.recordingStarts {
      GrewQuietly(before, log);
    } else if outcome.Threw? {
      StartThrew(before, prepared, log, answers, RecordingStarted(recorder), sink.value, call);
    } else {
      StartReturned(before, prepared, log, answers, RecordingStarted(recorder), sink, call, ReaderStarted(frameSize));
    }
  }

  /** A start whose output's onStart threw: the log past `before` holds the quiet
      preparation, the start of recording and the one delivery. */
  lemma StartThrew(before: seq<Event>, prepared: seq<Event>, log: seq<Event>, answers: PlatformAnswers,
                   recording: Event, sink: AudioSink, call: Call)
    requires |before| <= |prepared| && prepared[..|before|] == before && Quiet(prepared[|before|..])
    requires !recording.Received?
    requires var started := prepared + [recording];
      |log| >= |started| && log[..|started|] == started && Delivered(started, log, sink, call)
    ensures |before| <= |log| && log[..|before|] == before
    ensures Receipts(log[|before|..]) == Entries(Chain(sink), call)
  {
    var started := prepared + [recording];
    assert started[|before|..] == prepared[|before|..] + [recording];
    QuietConcat(prepared[|before|..], [recording]);
    assert log[..|log| - 0] == log;
    AroundDelivery(before, started, log, 0, Some(sink), call);
  }

  /** A start that went on to the reader thread: the log past `before` holds the
      quiet preparation, the start of recording, the delivery if there is an output,
      and the quiet start of the reader. */
  lemma StartReturned(before: seq<Event>, prepared: seq<Event>, log: seq<Event>, answers: PlatformAnswers,
                      recording: Event, sink: Option<AudioSink>, call: Call, reading: Event)
    requires |before| <= |prepared| && prepared[..|before|] == before && Quiet(prepared[|before|..])
    requires !recording.Received? && !reading.Received? && !reading.TrackThrew?
    requires var started := prepared + [recording];
      && |log| > |started| && log[..|started|] == started && log[|log| - 1] == reading
      && (sink.None? ==> log == started + [reading])
      && (sink.Some? ==> Delivered(started, log[..|log| - 1], sink.value, call))
    ensures |before| <= |log| && log[..|before|] == before
    ensures Receipts(log[|before|..]) == (if sink.Some? then Entries(Chain(sink.value), call) else [])
    ensures !Escaped(log, answers)
  {
    var started := prepared + [recording];
    assert started[|before|..] == prepared[|before|..] + [recording];
    QuietConcat(prepared[|before|..], [recording]);
    AroundDelivery(before, started, log, 1, sink, call);
  }

  lemma AroundDelivery(base: seq<Event>, mid: seq<Event>, log: seq<Event>, tail: nat,
                       output: Option<AudioSink>, c: Call)
    requires |base| <= |mid| && mid[..|base|] == base && Quiet(mid[|base|..])
    requires |log| >= |mid| + tail && log[..|mid|] == mid && Quiet(log[|log| - tail..])
    requires output.None? ==> log == mid + log[|log| - tail..]
    requires output.Some? ==> Delivered(mid, log[..|log| - tail], output.value, c)
    ensures |base| <= |log| && log[..|base|] == base
    ensures Receipts(log[|base|..]) == (if output.Some? then Entries(Chain(output.value), c) else [])
  {
    if output.Some? {
      DeliveredBetween(base, mid, log[..|log| - tail], log, output.value, c);
    } else {
      assert log[|base|..] == mid[|base|..] + log[|log| - tail..];
      QuietConcat(mid[|base|..], log[|log| - tail..]);
      GrewQuietly(base, log);
    }
  }
}
