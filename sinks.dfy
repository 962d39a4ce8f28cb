/** The AudioSink interface, its forwarding Wrapper, and the two sinks the core
    defines on it: the analysis tap (AudioSinkVisualizer) and the playback sink
    (AudioSinkPlayer). They live in one module because a wrapper may hold any
    sink, so dispatching a call and the wrappers' forwarding are one recursion.

    Everything observable is one trace, `Platform.log`: each sink records the call
    it is entered with (`Received`), and every call into an Android engine
    (AudioTrack, Visualizer, AudioRecord, the effects) is an event of its own. What
    those engines answer is fixed by `Platform.answers`. */
module Sinks {
  import opened Audio
  import Visualization
  import Playback

  /** An AudioSink: one of the core's implementations, or one defined outside it,
      of which the model sees only the calls it receives. */
  datatype AudioSink =
    | WrapperSink(wrapper: Wrapper)
    | VisualizerSink(visualizer: AudioSinkVisualizer)
    | PlayerSink(player: AudioSinkPlayer)
    | ExternalSink(id: nat)

  /** An AudioSessionProvider: the session of a playback sink, or a fixed id. */
  datatype SessionProvider = PlayerSession(player: AudioSinkPlayer) | FixedSession(session: int)

  /** The visualizer's callback: the orchestrator's bridge, or another listener. */
  datatype AnalysisCallback = ManagerBridge | OtherCallback(id: nat)

  /** Outcome of building an AudioTrack: built, IllegalArgumentException (caught by
      the player) or UnsupportedOperationException (not caught, so it escapes
      onStart). */
  datatype TrackBuild = TrackBuilt(generatedSession: int) | TrackRejected | TrackUnsupported

  /** Outcome of `new Visualizer(session)` followed by its configuration: the
      constructor may throw, or a later configuration call may. */
  datatype AnalyzerAttach = AttachOk | ConstructFails | ConfigureFails

  /** Outcome of AudioRecord.Builder.build(): built, UnsupportedOperationException
      (caught by the source) or IllegalArgumentException (not caught). */
  datatype RecorderBuild = RecorderBuilt(session: int) | RecorderUnsupported | RecorderRejected

  /** Everything the Android platform answers to the core. */
  datatype PlatformAnswers = PlatformAnswers(
    trackMinBufferSize: (int, ChannelMask, Encoding) -> int,
    trackBuild: TrackConfig -> TrackBuild,
    minCaptureSize: int,
    maxCaptureRate: int,
    analyzerAttach: int -> AnalyzerAttach,
    recorderMinBufferSize: (int, ChannelMask, Encoding) -> int,
    recorderBuild: RecorderConfig -> RecorderBuild,
    effectAvailable: EffectKind -> bool,
    effectCreated: (EffectKind, int) -> bool,
    effectEnabledByDefault: EffectKind -> bool,
    recordingStarts: bool,
    recordingAfterStart: bool)

  /** One observable step of the pipeline. */
  datatype Event =
    | Received(sink: AudioSink, call: Call)
    // the playback engine of a player
    | TrackCreated(owner: AudioSinkPlayer, track: Track)
    | TrackFailed(owner: AudioSinkPlayer, config: TrackConfig)
    | TrackThrew(owner: AudioSinkPlayer, config: TrackConfig)
    | TrackPlayed(owner: AudioSinkPlayer)
    | TrackWritten(owner: AudioSinkPlayer, buffer: ByteBuffer, offset: int, size: int)
    | TrackStopped(owner: AudioSinkPlayer)
    | TrackReleased(owner: AudioSinkPlayer)
    // the analyzer of a visualizer
    | AnalyzerRequested(tap: AudioSinkVisualizer, session: int, captureSize: int, captureRate: int,
                        result: AnalyzerAttach)
    | AnalyzerDisabled(tap: AudioSinkVisualizer)
    | AnalyzerReleased(tap: AudioSinkVisualizer)
    | AnalysisDelivered(tap: AudioSinkVisualizer, callback: AnalysisCallback, tag: int, data: seq<real>)
    // the capture engine, its effects and its reader thread
    | RecorderCreated(recorder: Recorder)
    | EffectEnabled(effect: Effect)
    | RecordingStarted(recorder: Recorder)
    | ReaderStarted(frameSize: int)
    | RecordingStopped(recorder: Recorder)
    | ReaderJoined
    | EffectReleased(effect: Effect)
    | RecorderReleased(recorder: Recorder)
    // the orchestrator's observer
    | WaveformObserved(data: seq<real>)
    | SpectrumObserved(data: seq<real>)
    // a source defined outside the core
    | SourceOutputSet(source: nat, output: Option<AudioSink>)
    | SourceStarted(source: nat, sampleRate: int, sampleBits: int, samplePerFrame: int, numChannels: int)
    | SourceStopped(source: nat)

  /** The Android platform as the core sees it: what it answers, and the trace of
      everything done to it. */
  class Platform {
    var log: seq<Event>
    const answers: PlatformAnswers

    constructor (answers: PlatformAnswers)
      ensures this.answers == answers && log == []
    {
      this.answers := answers;
      log := [];
    }
  }

  // ---------------------------------------------------------------------------
  // The sink entries of a log

  /** The `Received` events among `events`, in order: which sink was entered with which call. */
  function Receipts(events: seq<Event>): seq<Event>
  {
    if events == [] then []
    else
      var n := |events| - 1;
      Receipts(events[..n]) + (if events[n].Received? then [events[n]] else [])
  }

  /** No sink is entered during `events`. */
  ghost predicate Quiet(events: seq<Event>)
  {
    forall i :: 0 <= i < |events| ==> !events[i].Received?
  }

  /** The entries one call `c` makes on a chain: every sink of it, in order. */
  function Entries(chain: seq<AudioSink>, c: Call): (r: seq<Event>)
    ensures |r| == |chain|
  {
    seq(|chain|, i requires 0 <= i < |chain| => Received(chain[i], c))
  }

  /** The entries a run of calls makes on a chain: each call, in turn, enters every
      sink of the chain. */
  function Fanout(chain: seq<AudioSink>, calls: seq<Call>): seq<Event>
  {
    if calls == [] then []
    else
      var n := |calls| - 1;
      Fanout(chain, calls[..n]) + Entries(chain, calls[n])
  }

  lemma {:induction false} ReceiptsAppend(a: seq<Event>, b: seq<Event>)
    ensures Receipts(a + b) == Receipts(a) + Receipts(b)
  {
    if b == [] {
      assert a + b == a;
    } else {
      var n := |b| - 1;
      assert (a + b)[..|a + b| - 1] == a + b[..n];
      assert (a + b)[|a + b| - 1] == b[n];
      ReceiptsAppend(a, b[..n]);
    }
  }

  lemma {:induction false} ReceiptsQuiet(events: seq<Event>)
    requires Quiet(events)
    ensures Receipts(events) == []
  {
    if events != [] {
      var n := |events| - 1;
      assert !events[n].Received?;
      ReceiptsQuiet(events[..n]);
    }
  }

  lemma EntriesCons(s: AudioSink, chain: seq<AudioSink>, c: Call)
    ensures Entries([s] + chain, c) == [Received(s, c)] + Entries(chain, c)
  {
  }

  /** A run of calls followed by one more fans out as the run, then that call. */
  lemma FanoutSnoc(chain: seq<AudioSink>, calls: seq<Call>, c: Call)
    ensures Fanout(chain, calls + [c]) == Fanout(chain, calls) + Entries(chain, c)
  {
    assert (calls + [c])[..|calls|] == calls;
  }

  // ---------------------------------------------------------------------------
  // Chains of sinks

  /** The sinks a call on `s` reaches, in the order they are entered: `s` and,
      through forwarding, every sink nested in it. */
  ghost function Chain(s: AudioSink): seq<AudioSink>
  {
    match s
    case WrapperSink(w) => w.chain
    case VisualizerSink(v) => v.chain
    case PlayerSink(_) => [s]
    case ExternalSink(_) => [s]
  }

  ghost function InnerChain(inner: Option<AudioSink>): seq<AudioSink>
  {
    if inner.Some? then Chain(inner.value) else []
  }

  /** The objects a call on `s` may update. */
  ghost function Repr(s: AudioSink): set<object>
  {
    match s
    case WrapperSink(w) => w.Repr
    case VisualizerSink(v) => v.Repr
    case PlayerSink(p) => {p}
    case ExternalSink(_) => {}
  }

  ghost function InnerRepr(inner: Option<AudioSink>): set<object>
  {
    if inner.Some? then Repr(inner.value) else {}
  }

  /** How deeply forwarding sinks nest below `s`. */
  ghost function Depth(s: AudioSink): nat
  {
    match s
    case WrapperSink(w) => w.depth
    case VisualizerSink(v) => v.depth
    case PlayerSink(_) => 0
    case ExternalSink(_) => 0
  }

  ghost predicate ValidSink(s: AudioSink)
    decreases Depth(s), 3
  {
    match s
    case WrapperSink(w) => w.Valid()
    case VisualizerSink(v) => v.Valid()
    case PlayerSink(_) => true
    case ExternalSink(_) => true
  }

  /** A forwarding sink `self` (object `obj`) over `inner` is well formed: the inner
      chain is well formed, shallower, inside its footprint, and does not contain it. */
  ghost predicate ValidForwarder(self: AudioSink, obj: object, inner: Option<AudioSink>,
                                 repr: set<object>, chain: seq<AudioSink>, depth: nat)
    decreases depth, 1
  {
    && chain == [self] + InnerChain(inner)
    && repr == {obj} + InnerRepr(inner)
    && (inner.Some? ==>
          && Depth(inner.value) < depth
          && ValidSink(inner.value)
          && obj !in Repr(inner.value)
          && self !in Chain(inner.value))
  }

  /** No sink occurs twice in `chain`. */
  ghost predicate Distinct(chain: seq<AudioSink>)
  {
    forall i, j :: 0 <= i < j < |chain| ==> chain[i] != chain[j]
  }

  /** A well-formed chain starts with its own sink and never revisits a sink, so a
      call on it reaches each of its sinks exactly once. */
  lemma {:induction false} ChainDistinct(s: AudioSink)
    requires ValidSink(s)
    ensures |Chain(s)| > 0 && Chain(s)[0] == s
    ensures Distinct(Chain(s))
    decreases Depth(s)
  {
    match s
    case WrapperSink(w) =>
      assert w.Valid();
      assert ValidForwarder(s, w, w.inner, w.Repr, w.chain, w.depth);
      if w.inner.Some? {
        ChainDistinct(w.inner.value);
      }
    case VisualizerSink(v) =>
      assert v.Valid();
      assert ValidForwarder(s, v, v.inner, v.Repr, v.chain, v.depth);
      if v.inner.Some? {
        ChainDistinct(v.inner.value);
      }
    case PlayerSink(_) =>
    case ExternalSink(_) =>
  }

  /** The calls `s` was entered with during `events`, in order. */
  function CallsTo(events: seq<Event>, s: AudioSink): seq<Call>
  {
    if events == [] then []
    else
      var n := |events| - 1;
      CallsTo(events[..n], s) +
      (if events[n].Received? && events[n].sink == s then [events[n].call] else [])
  }

  lemma {:induction false} CallsToAppend(a: seq<Event>, b: seq<Event>, s: AudioSink)
    ensures CallsTo(a + b, s) == CallsTo(a, s) + CallsTo(b, s)
  {
    if b == [] {
      assert a + b == a;
    } else {
      var n := |b| - 1;
      assert (a + b)[..|a + b| - 1] == a + b[..n];
      assert (a + b)[|a + b| - 1] == b[n];
      CallsToAppend(a, b[..n], s);
    }
  }

  /** One call on a chain without repeats enters each of its sinks once, and no other sink. */
  lemma {:induction false} EntriesTo(chain: seq<AudioSink>, c: Call, s: AudioSink)
    requires Distinct(chain)
    ensures CallsTo(Entries(chain, c), s) == if s in chain then [c] else []
  {
    if chain != [] {
      var n := |chain| - 1;
      var front, last := Entries(chain[..n], c), Received(chain[n], c);
      assert Entries(chain, c) == front + [last];
      assert Distinct(chain[..n]);
      EntriesTo(chain[..n], c, s);
      CallsToAppend(front, [last], s);
      assert [last][..0] == [];
      assert CallsTo([last], s) == if s == chain[n] then [c] else [];
      assert chain == chain[..n] + [chain[n]];
      if s == chain[n] {
        assert s !in chain[..n];
      } else {
        assert s in chain <==> s in chain[..n];
      }
    }
  }

  /** A run of calls on a chain without repeats reaches every sink of it as that
      same run, in the same order. */
  lemma {:induction false} FanoutTo(chain: seq<AudioSink>, calls: seq<Call>, s: AudioSink)
    requires Distinct(chain) && s in chain
    ensures CallsTo(Fanout(chain, calls), s) == calls
  {
    if calls != [] {
      var n := |calls| - 1;
      FanoutTo(chain, calls[..n], s);
      CallsToAppend(Fanout(chain, calls[..n]), Entries(chain, calls[n]), s);
      EntriesTo(chain, calls[n], s);
      assert calls == calls[..n] + [calls[n]];
    }
  }

  /** Every sink of a well-formed chain, the innermost included, receives exactly
      the calls made on the outermost one, in the same order. */
  lemma ChainReceivesSameCalls(s: AudioSink, calls: seq<Call>, k: nat)
    requires ValidSink(s) && k < |Chain(s)|
    ensures CallsTo(Fanout(Chain(s), calls), Chain(s)[k]) == calls
  {
    ChainDistinct(s);
    FanoutTo(Chain(s), calls, Chain(s)[k]);
  }

  /** A call `c` on `s` took the log from `before` to `after`: `s` was entered first,
      and the sinks entered since are exactly the chain of `s`, in order, every one
      of them with `c`. */
  ghost predicate Delivered(before: seq<Event>, after: seq<Event>, s: AudioSink, c: Call)
  {
    && |before| < |after|
    && after[..|before|] == before
    && after[|before|] == Received(s, c)
    && Receipts(after[|before|..]) == Entries(Chain(s), c)
  }

  /** Talking only to the platform after a delivery keeps it a delivery. */
  lemma DeliveredThenQuiet(before: seq<Event>, after: seq<Event>, s: AudioSink, c: Call, events: seq<Event>)
    requires Delivered(before, after, s, c) && Quiet(events)
    ensures Delivered(before, after + events, s, c)
  {
    assert (after + events)[|before|..] == after[|before|..] + events;
    ReceiptsAppend(after[|before|..], events);
    ReceiptsQuiet(events);
  }

  /** A sink that is entered and then only talks to the platform delivers to itself alone. */
  lemma EnterThenQuiet(before: seq<Event>, s: AudioSink, c: Call, events: seq<Event>)
    requires Chain(s) == [s]
    requires Quiet(events)
    ensures Delivered(before, before + [Received(s, c)] + events, s, c)
  {
    var after := before + [Received(s, c)] + events;
    assert after[|before|..] == [Received(s, c)] + events;
    ReceiptsAppend([Received(s, c)], events);
    ReceiptsQuiet(events);
    assert [Received(s, c)][..0] == [];
    assert Entries([s], c) == [Received(s, c)];
  }

  /** A forwarding sink that is entered, forwards to its inner sink, and then only
      talks to the platform delivers to its whole chain. */
  lemma EnterForwardQuiet(before: seq<Event>, forwarded: seq<Event>, after: seq<Event>,
                          self: AudioSink, inner: Option<AudioSink>, c: Call, events: seq<Event>)
    requires inner.None? ==> forwarded == before + [Received(self, c)]
    requires inner.Some? ==> Delivered(before + [Received(self, c)], forwarded, inner.value, c)
    requires Quiet(events) && after == forwarded + events
    ensures && |before| < |after|
            && after[..|before|] == before
            && after[|before|] == Received(self, c)
            && Receipts(after[|before|..]) == Entries([self] + InnerChain(inner), c)
  {
    var entered := before + [Received(self, c)];
    var innerPart := forwarded[|entered|..];
    assert forwarded[..|entered|] == entered;
    assert after[|before|..] == [Received(self, c)] + innerPart + events;
    ReceiptsAppend([Received(self, c)] + innerPart, events);
    ReceiptsAppend([Received(self, c)], innerPart);
    ReceiptsQuiet(events);
    assert [Received(self, c)][..0] == [];
    assert inner.None? ==> innerPart == [];
    EntriesCons(self, InnerChain(inner), c);
  }

  /** A delivery of `c` on `s` after a run of deliveries extends the run by `c`. */
  lemma DeliveredAfterRun(start: seq<Event>, mid: seq<Event>, after: seq<Event>,
                          s: AudioSink, calls: seq<Call>, c: Call)
    requires |start| <= |mid| && mid[..|start|] == start
    requires Receipts(mid[|start|..]) == Fanout(Chain(s), calls)
    requires Delivered(mid, after, s, c)
    ensures |start| <= |after| && after[..|start|] == start
    ensures Receipts(after[|start|..]) == Fanout(Chain(s), calls + [c])
  {
    assert after[|start|..] == mid[|start|..] + after[|mid|..];
    ReceiptsAppend(mid[|start|..], after[|mid|..]);
    FanoutSnoc(Chain(s), calls, c);
  }

  /** What an AudioSessionProvider returns when asked. */
  function ProvidedSession(provider: SessionProvider): int
    reads if provider.PlayerSession? then {provider.player} else {}
  {
    match provider
    case PlayerSession(p) => p.SessionId()
    case FixedSession(id) => id
  }

  /** The log ends with a track build that threw UnsupportedOperationException. */
  predicate Escaped(log: seq<Event>, answers: PlatformAnswers)
  {
    |log| > 0 && log[|log| - 1].TrackThrew? && answers.trackBuild(log[|log| - 1].config) == TrackUnsupported
  }

  /** Every track configuration either builds or is rejected: no track build throws
      out of onStart. */
  ghost predicate TracksSupported(answers: PlatformAnswers)
  {
    forall config :: answers.trackBuild(config) != TrackUnsupported
  }

  /** A platform whose every track configuration builds or is rejected leaves no
      log ending in an escaped track build. */
  lemma SupportedTracksNeverEscape(log: seq<Event>, answers: PlatformAnswers)
    requires TracksSupported(answers)
    ensures !Escaped(log, answers)
  {
    if |log| > 0 && log[|log| - 1].TrackThrew? {
      assert answers.trackBuild(log[|log| - 1].config) != TrackUnsupported;
    }
  }

  /** Calls `c` on `s`: the dynamic dispatch of the AudioSink interface. Only an
      onStart can escape, and only from a player whose track build threw; the
      player ends every chain, so by then every sink of the chain was entered and
      the escape is the last thing that happened. */
  method Deliver(s: AudioSink, c: Call, pf: Platform) returns (escaped: bool)
    requires ValidSink(s) && pf !in Repr(s)
    modifies Repr(s), pf
    ensures Delivered(old(pf.log), pf.log, s, c)
    ensures escaped <==> Escaped(pf.log, pf.answers)
    ensures escaped ==> c.Start?
    decreases Depth(s), 3
  {
    escaped := false;
    match s
    case WrapperSink(w) =>
      match c {
        case Start(rate, bits, frame, channels) => escaped := w.OnStart(rate, bits, frame, channels, pf);
        case Data(buffer, offset, size, timestamp) => w.OnData(buffer, offset, size, timestamp, pf);
        case Stop => w.OnStop(pf);
      }
    case VisualizerSink(v) =>
      match c {
        case Start(rate, bits, frame, channels) => escaped := v.OnStart(rate, bits, frame, channels, pf);
        case Data(buffer, offset, size, timestamp) => v.OnData(buffer, offset, size, timestamp, pf);
        case Stop => v.OnStop(pf);
      }
    case PlayerSink(p) =>
      match c {
        case Start(rate, bits, frame, channels) => escaped := p.OnStart(rate, bits, frame, channels, pf);
        case Data(buffer, offset, size, timestamp) => p.OnData(buffer, offset, size, timestamp, pf);
        case Stop => p.OnStop(pf);
      }
    case ExternalSink(_) =>
      EnterThenQuiet(pf.log, s, c, []);
      pf.log := pf.log + [Received(s, c)];
      assert pf.log == old(pf.log) + [Received(s, c)] + [];
  }

  /** The Wrapper's forwarding: the call goes to the inner sink when there is one,
      and is dropped otherwise. */
  method Forward(inner: Option<AudioSink>, c: Call, pf: Platform) returns (escaped: bool)
    requires inner.Some? ==> ValidSink(inner.value) && pf !in Repr(inner.value)
    modifies InnerRepr(inner), pf
    ensures inner.None? ==> pf.log == old(pf.log) && !escaped
    ensures inner.Some? ==> Delivered(old(pf.log), pf.log, inner.value, c) && (escaped <==> Escaped(pf.log, pf.answers))
    ensures escaped ==> c.Start?
    decreases if inner.Some? then Depth(inner.value) + 1 else 0, 0
  {
    escaped := false;
    if inner.Some? {
      escaped := Deliver(inner.value, c, pf);
    }
  }

  /** AudioSink.Wrapper: forwards every call, unchanged, to an optional inner sink. */
  class Wrapper {
    const inner: Option<AudioSink>
    ghost const Repr: set<object>
    ghost const chain: seq<AudioSink>
    ghost const depth: nat

    ghost predicate Valid()
      decreases depth, 2
    {
      ValidForwarder(WrapperSink(this), this, inner, Repr, chain, depth)
    }

    constructor (inner: Option<AudioSink>)
      requires inner.Some? ==> ValidSink(inner.value)
      ensures Valid() && this.inner == inner
      ensures Repr == {this} + InnerRepr(inner)
      ensures chain == [WrapperSink(this)] + InnerChain(inner)
    {
      this.inner := inner;
      Repr := {this} + InnerRepr(inner);
      chain := [WrapperSink(this)] + InnerChain(inner);
      depth := if inner.Some? then Depth(inner.value) + 1 else 0;
    }

    /** With an inner sink the call reaches it with the same four arguments, and
        whatever the inner sink throws passes through; without one nothing else
        happens. */
    method OnStart(sampleRate: int, sampleBits: int, frameSize: int, numChannels: int, pf: Platform)
      returns (escaped: bool)
      requires Valid() && pf !in Repr
      modifies Repr, pf
      ensures Delivered(old(pf.log), pf.log, WrapperSink(this), Start(sampleRate, sampleBits, frameSize, numChannels))
      ensures inner.None? ==> pf.log == old(pf.log) + [Received(WrapperSink(this), Start(sampleRate, sampleBits, frameSize, numChannels))]
      ensures escaped <==> Escaped(pf.log, pf.answers)
      decreases depth, 2
    {
      var c := Start(sampleRate, sampleBits, frameSize, numChannels);
      ghost var before := pf.log;
      pf.log := pf.log + [Received(WrapperSink(this), c)];
      escaped := Forward(inner, c, pf);
      EnterForwardQuiet(before, pf.log, pf.log, WrapperSink(this), inner, c, []);
      assert pf.log + [] == pf.log;
    }

    /** With an inner sink the frame reaches it unchanged (buffer, offset, size and
        timestamp); without one nothing else happens. */
    method OnData(buffer: ByteBuffer, offset: int, size: int, timestamp: int, pf: Platform)
      requires Valid() && pf !in Repr
      modifies Repr, pf
      ensures Delivered(old(pf.log), pf.log, WrapperSink(this), Data(buffer, offset, size, timestamp))
      ensures inner.None? ==> pf.log == old(pf.log) + [Received(WrapperSink(this), Data(buffer, offset, size, timestamp))]
      ensures !Escaped(pf.log, pf.answers)
      decreases depth, 2
    {
      var c := Data(buffer, offset, size, timestamp);
      ghost var before := pf.log;
      pf.log := pf.log + [Received(WrapperSink(this), c)];
      var _ := Forward(inner, c, pf);
      EnterForwardQuiet(before, pf.log, pf.log, WrapperSink(this), inner, c, []);
      assert pf.log + [] == pf.log;
    }

    /** With an inner sink it receives exactly one onStop; without one nothing else happens. */
    method OnStop(pf: Platform)
      requires Valid() && pf !in Repr
      modifies Repr, pf
      ensures Delivered(old(pf.log), pf.log, WrapperSink(this), Stop)
      ensures inner.None? ==> pf.log == old(pf.log) + [Received(WrapperSink(this), Stop)]
      ensures !Escaped(pf.log, pf.answers)
      decreases depth, 2
    {
      ghost var before := pf.log;
      pf.log := pf.log + [Received(WrapperSink(this), Stop)];
      var _ := Forward(inner, Stop, pf);
      EnterForwardQuiet(before, pf.log, pf.log, WrapperSink(this), inner, Stop, []);
      assert pf.log + [] == pf.log;
    }
  }

  /** AudioSinkVisualizer: a Wrapper that also attaches a platform analyzer to the
      session of the audio it passes on, and hands the analyzer's captures,
      transformed, to its callback. */
  class AudioSinkVisualizer {
    const inner: Option<AudioSink>
    ghost const Repr: set<object>
    ghost const chain: seq<AudioSink>
    ghost const depth: nat
    var analyzer: Option<Analyzer>
    var provider: Option<SessionProvider>
    var callback: Option<AnalysisCallback>

    ghost predicate Valid()
      decreases depth, 2
    {
      ValidForwarder(VisualizerSink(this), this, inner, Repr, chain, depth)
    }

    constructor (inner: Option<AudioSink>)
      requires inner.Some? ==> ValidSink(inner.value)
      ensures Valid() && this.inner == inner
      ensures Repr == {this} + InnerRepr(inner)
      ensures chain == [VisualizerSink(this)] + InnerChain(inner)
      ensures analyzer == None && provider == None && callback == None
    {
      this.inner := inner;
      Repr := {this} + InnerRepr(inner);
      chain := [VisualizerSink(this)] + InnerChain(inner);
      depth := if inner.Some? then Depth(inner.value) + 1 else 0;
      analyzer, provider, callback := None, None, None;
    }

    method SetSessionProvider(provider: Option<SessionProvider>)
      modifies this
      ensures this.provider == provider
      ensures analyzer == old(analyzer) && callback == old(callback)
    {
      this.provider := provider;
    }

    method SetCallback(callback: Option<AnalysisCallback>)
      modifies this
      ensures this.callback == callback
      ensures analyzer == old(analyzer) && provider == old(provider)
    {
      this.callback := callback;
    }

    /** The session the analyzer attaches to: the provider's, asked only once the
        inner sink has started, or 0 (the output mix) without a provider. */
    function AnalyzerSession(): int
      reads this, if provider.Some? && provider.value.PlayerSession? then {provider.value.player} else {}
    {
      if provider.Some? then ProvidedSession(provider.value) else 0
    }

    /** Forwards first, so that the inner sink's session exists, then requests an
        analyzer on that session with the smallest capture size and the capped
        capture rate; the request is the last thing that happens. An exception
        from the inner sink leaves onStart before the request. */
    method OnStart(sampleRate: int, sampleBits: int, frameSize: int, numChannels: int, pf: Platform)
      returns (escaped: bool)
      requires Valid() && pf !in Repr
      modifies Repr, pf
      ensures Delivered(old(pf.log), pf.log, VisualizerSink(this), Start(sampleRate, sampleBits, frameSize, numChannels))
      ensures escaped <==> Escaped(pf.log, pf.answers)
      ensures escaped ==> analyzer == old(analyzer)
      ensures !escaped ==>
        && |pf.log| > |old(pf.log)| + 1
        && Delivered(old(pf.log), pf.log[..|pf.log| - 1], VisualizerSink(this),
                     Start(sampleRate, sampleBits, frameSize, numChannels))
        && var size, rate := pf.answers.minCaptureSize, Visualization.CaptureRate(pf.answers.maxCaptureRate);
           && pf.log[|pf.log| - 1] == AnalyzerRequested(this, AnalyzerSession(), size, rate,
                                                        pf.answers.analyzerAttach(AnalyzerSession()))
           && analyzer == (if pf.answers.analyzerAttach(AnalyzerSession()) == ConstructFails then old(analyzer)
                           else Some(Analyzer(AnalyzerSession(), size, rate)))
      ensures provider == old(provider) && callback == old(callback)
      decreases depth, 2
    {
      var c := Start(sampleRate, sampleBits, frameSize, numChannels);
      ghost var before := pf.log;
      pf.log := pf.log + [Received(VisualizerSink(this), c)];
      escaped := Forward(inner, c, pf);
      ghost var forwarded := pf.log;
      if escaped {
        EnterForwardQuiet(before, forwarded, forwarded, VisualizerSink(this), inner, c, []);
        assert forwarded + [] == forwarded;
        return;
      }
      RequestAnalyzer(pf);
      EnterForwardQuiet(before, forwarded, forwarded, VisualizerSink(this), inner, c, []);
      assert forwarded + [] == forwarded;
      assert pf.log[..|pf.log| - 1] == forwarded;
      DeliveredThenQuiet(before, forwarded, VisualizerSink(this), c, [pf.log[|pf.log| - 1]]);
    }

    /** The second half of onStart: asks the platform for an analyzer on the
        session, and keeps it unless its constructor failed. */
    method RequestAnalyzer(pf: Platform)
      modifies this, pf
      ensures var size, rate := pf.answers.minCaptureSize, Visualization.CaptureRate(pf.answers.maxCaptureRate);
              var result := pf.answers.analyzerAttach(AnalyzerSession());
              && pf.log == old(pf.log) + [AnalyzerRequested(this, AnalyzerSession(), size, rate, result)]
              && analyzer == (if result == ConstructFails then old(analyzer) else Some(Analyzer(AnalyzerSession(), size, rate)))
      ensures AnalyzerSession() == old(AnalyzerSession())
      ensures provider == old(provider) && callback == old(callback)
    {
      var size := pf.answers.minCaptureSize;
      var rate := Visualization.CaptureRate(pf.answers.maxCaptureRate);
      var sessionId := AnalyzerSession();
      var result := pf.answers.analyzerAttach(sessionId);
      if result != ConstructFails {
        analyzer := Some(Analyzer(sessionId, size, rate));
      }
      pf.log := pf.log + [AnalyzerRequested(this, sessionId, size, rate, result)];
    }

    /** Only forwards: the frame reaches the inner sink unaltered. */
    method OnData(buffer: ByteBuffer, offset: int, size: int, timestamp: int, pf: Platform)
      requires Valid() && pf !in Repr
      modifies Repr, pf
      ensures Delivered(old(pf.log), pf.log, VisualizerSink(this), Data(buffer, offset, size, timestamp))
      ensures !Escaped(pf.log, pf.answers)
      ensures analyzer == old(analyzer) && provider == old(provider) && callback == old(callback)
      decreases depth, 2
    {
      var c := Data(buffer, offset, size, timestamp);
      ghost var before := pf.log;
      pf.log := pf.log + [Received(VisualizerSink(this), c)];
      var _ := Forward(inner, c, pf);
      EnterForwardQuiet(before, pf.log, pf.log, VisualizerSink(this), inner, c, []);
      assert pf.log + [] == pf.log;
    }

    /** Forwards first, then disables and releases the analyzer if one was created. */
    method OnStop(pf: Platform)
      requires Valid() && pf !in Repr
      modifies Repr, pf
      ensures Delivered(old(pf.log), pf.log, VisualizerSink(this), Stop)
      ensures !Escaped(pf.log, pf.answers)
      ensures var released := if analyzer.Some? then [AnalyzerDisabled(this), AnalyzerReleased(this)] else [];
              && |pf.log| > |old(pf.log)| + |released|
              && Delivered(old(pf.log), pf.log[..|pf.log| - |released|], VisualizerSink(this), Stop)
              && pf.log[|pf.log| - |released|..] == released
      ensures analyzer == old(analyzer) && provider == old(provider) && callback == old(callback)
      decreases depth, 2
    {
      ghost var before := pf.log;
      pf.log := pf.log + [Received(VisualizerSink(this), Stop)];
      var _ := Forward(inner, Stop, pf);
      ghost var forwarded := pf.log;
      ghost var released := if analyzer.Some? then [AnalyzerDisabled(this), AnalyzerReleased(this)] else [];
      if analyzer.Some? {
        pf.log := pf.log + [AnalyzerDisabled(this), AnalyzerReleased(this)];
      }
      EnterForwardQuiet(before, forwarded, forwarded, VisualizerSink(this), inner, Stop, []);
      assert forwarded + [] == forwarded;
      assert pf.log == forwarded + released;
      DeliveredThenQuiet(before, forwarded, VisualizerSink(this), Stop, released);
    }

    /** The waveform listener: normalises the capture and, only if a callback is
        set, hands it over with the WAV tag. */
    method OnWaveFormDataCapture(waveform: seq<Byte>, pf: Platform)
      modifies pf
      ensures pf.log == old(pf.log) +
        (if callback.Some? then [AnalysisDelivered(this, callback.value, Visualization.WAV, Visualization.Waveform(waveform))]
         else [])
    {
      var wave := Visualization.NormalizeWaveform(waveform);
      if callback.Some? {
        pf.log := pf.log + [AnalysisDelivered(this, callback.value, Visualization.WAV, wave)];
      }
    }

    /** The spectrum listener: unpacks the capture into magnitudes and, only if a
        callback is set, hands them over with the FFT tag. A capture of fewer than
        two bytes makes the unpacking index out of bounds: the listener throws and
        nothing is delivered (`completed` is false). */
    method OnFftDataCapture(fft: seq<Byte>, hypot: (int, int) -> real, pf: Platform) returns (completed: bool)
      modifies pf
      ensures completed <==> |fft| >= 2
      ensures pf.log == old(pf.log) +
        (if completed && callback.Some?
         then [AnalysisDelivered(this, callback.value, Visualization.FFT, Visualization.Spectrum(fft, hypot))]
         else [])
    {
      if |fft| < 2 {
        return false;
      }
      var magnitudes := Visualization.ComputeMagnitudes(fft, hypot);
      if callback.Some? {
        pf.log := pf.log + [AnalysisDelivered(this, callback.value, Visualization.FFT, magnitudes)];
      }
      return true;
    }
  }

  /** AudioSinkPlayer: plays every frame it receives on a platform AudioTrack. */
  class AudioSinkPlayer {
    var track: Option<Track>
    /** The track was released by onStop; the source keeps the reference to it. */
    var released: bool
    var provider: Option<SessionProvider>
    const voiceCall: bool

    constructor (voiceCall: bool)
      ensures this.voiceCall == voiceCall && track == None && !released && provider == None
    {
      this.voiceCall := voiceCall;
      track, released, provider := None, false, None;
    }

    method SetSessionProvider(provider: Option<SessionProvider>)
      modifies this
      ensures this.provider == provider && track == old(track) && released == old(released)
    {
      this.provider := provider;
    }

    /** getSessionId: the track's session, and 0 while there is no track. */
    function SessionId(): (r: int)
      reads this
      ensures track.None? ==> r == 0
      ensures track.Some? ==> r == track.value.session
    {
      if track.Some? then track.value.session else 0
    }

    /** The session the provider gives, or 0 without one. */
    function ProviderSession(): int
      reads this, if provider.Some? && provider.value.PlayerSession? then {provider.value.player} else {}
    {
      if provider.Some? then ProvidedSession(provider.value) else 0
    }

    /** The track configuration onStart asks for. */
    function PlannedTrack(sampleRate: int, sampleBits: int, frameSize: int, numChannels: int,
                          answers: PlatformAnswers, providerSession: int): TrackConfig
      reads this
    {
      var channels := Playback.OutChannels(numChannels);
      var encoding := Playback.OutEncoding(sampleBits);
      var minBufferSize := answers.trackMinBufferSize(sampleRate, channels, encoding);
      TrackConfig(Playback.TrackUsage(voiceCall), sampleRate, encoding, channels,
                  Playback.TrackBufferSize(minBufferSize, sampleBits, frameSize, numChannels),
                  Playback.RequestedSession(providerSession))
    }

    /** Builds a track for the stream: channel mask, encoding and buffer size from
        the format, the provider's session only when positive. A built track takes
        that session, or one the platform generates. A rejected configuration is
        caught and leaves the previous track in place; an unsupported one throws
        out of onStart (`escaped`), also leaving the previous track. */
    method OnStart(sampleRate: int, sampleBits: int, frameSize: int, numChannels: int, pf: Platform)
      returns (escaped: bool)
      modifies this, pf
      ensures provider == old(provider)
      ensures var c := Start(sampleRate, sampleBits, frameSize, numChannels);
              var config := PlannedTrack(sampleRate, sampleBits, frameSize, numChannels, pf.answers, old(ProviderSession()));
              match pf.answers.trackBuild(config)
              case TrackBuilt(generated) =>
                && !escaped && !released
                && track == Some(Track(config, if config.requestedSession.Some? then config.requestedSession.value else generated))
                && pf.log == old(pf.log) + [Received(PlayerSink(this), c), TrackCreated(this, track.value)]
              case TrackRejected =>
                && !escaped && track == old(track) && released == old(released)
                && pf.log == old(pf.log) + [Received(PlayerSink(this), c), TrackFailed(this, config)]
              case TrackUnsupported =>
                && escaped && track == old(track) && released == old(released)
                && pf.log == old(pf.log) + [Received(PlayerSink(this), c), TrackThrew(this, config)]
      ensures Delivered(old(pf.log), pf.log, PlayerSink(this), Start(sampleRate, sampleBits, frameSize, numChannels))
      ensures escaped <==> Escaped(pf.log, pf.answers)
    {
      var c := Start(sampleRate, sampleBits, frameSize, numChannels);
      ghost var before := pf.log;
      pf.log := pf.log + [Received(PlayerSink(this), c)];
      var sessionId := ProviderSession();
      var config := PlannedTrack(sampleRate, sampleBits, frameSize, numChannels, pf.answers, sessionId);
      match pf.answers.trackBuild(config)
      case TrackBuilt(generated) =>
        var t := Track(config, if sessionId > 0 then sessionId else generated);
        track, released := Some(t), false;
        pf.log := pf.log + [TrackCreated(this, t)];
        EnterThenQuiet(before, PlayerSink(this), c, [TrackCreated(this, t)]);
        escaped := false;
      case TrackRejected =>
        pf.log := pf.log + [TrackFailed(this, config)];
        EnterThenQuiet(before, PlayerSink(this), c, [TrackFailed(this, config)]);
        escaped := false;
      case TrackUnsupported =>
        pf.log := pf.log + [TrackThrew(this, config)];
        EnterThenQuiet(before, PlayerSink(this), c, [TrackThrew(this, config)]);
        escaped := true;
    }

    /** An empty frame (size <= 0) is rejected and nothing is written. Otherwise the
        track plays and exactly `size` bytes from `offset` are written. An offset
        the buffer rejects, a missing track, or a released one (whose play()
        throws) ends the guarded block before the write, and the frame is dropped. */
    method OnData(buffer: ByteBuffer, offset: int, size: int, timestamp: int, pf: Platform)
      modifies pf
      ensures var written := size > 0 && 0 <= offset <= buffer.limit && track.Some? && !released;
              pf.log == old(pf.log) + [Received(PlayerSink(this), Data(buffer, offset, size, timestamp))] +
                        (if written then [TrackPlayed(this), TrackWritten(this, buffer, offset, size)] else [])
      ensures Delivered(old(pf.log), pf.log, PlayerSink(this), Data(buffer, offset, size, timestamp))
      ensures !Escaped(pf.log, pf.answers)
    {
      var c := Data(buffer, offset, size, timestamp);
      ghost var before := pf.log;
      pf.log := pf.log + [Received(PlayerSink(this), c)];
      if size <= 0 {
        EnterThenQuiet(before, PlayerSink(this), c, []);
        assert pf.log == pf.log + [];
        return;
      }
      if offset < 0 || offset > buffer.limit || track.None? || released {
        EnterThenQuiet(before, PlayerSink(this), c, []);
        assert pf.log == pf.log + [];
        return;
      }
      pf.log := pf.log + [TrackPlayed(this), TrackWritten(this, buffer, offset, size)];
      EnterThenQuiet(before, PlayerSink(this), c, [TrackPlayed(this), TrackWritten(this, buffer, offset, size)]);
    }

    /** Stops and releases the track if there is one that is not yet released. On
        an already released track stop() throws inside the guarded block, and the
        release is skipped. */
    method OnStop(pf: Platform)
      modifies this, pf
      ensures track == old(track) && provider == old(provider)
      ensures released == (old(released) || track.Some?)
      ensures pf.log == old(pf.log) + [Received(PlayerSink(this), Stop)] +
                        (if track.Some? && !old(released) then [TrackStopped(this), TrackReleased(this)] else [])
      ensures Delivered(old(pf.log), pf.log, PlayerSink(this), Stop)
      ensures !Escaped(pf.log, pf.answers)
    {
      ghost var before := pf.log;
      pf.log := pf.log + [Received(PlayerSink(this), Stop)];
      if track.Some? && !released {
        pf.log := pf.log + [TrackStopped(this), TrackReleased(this)];
        released := true;
        EnterThenQuiet(before, PlayerSink(this), Stop, [TrackStopped(this), TrackReleased(this)]);
      } else {
        EnterThenQuiet(before, PlayerSink(this), Stop, []);
        assert pf.log == pf.log + [];
      }
    }
  }
}
