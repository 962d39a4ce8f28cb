# proto-kirin audio core, modelled in Dafny

proto-kirin is an Android prototype that captures audio from the microphone and
plays it back. It also shows a live waveform and spectrum of what it plays. This
project models the audio core:

- **Sink chain.** `AudioSink` is the interface every stage implements
  (`onStart`, `onData`, `onStop`). `AudioSink.Wrapper` forwards every call to an
  optional inner sink. The interface becomes the datatype `Sinks.AudioSink`, with
  one constructor per implementation and one for sinks defined outside the core.
  Its dynamic dispatch is `Sinks.Deliver`. Only one exception escapes a sink:
  the player catches a rejected track configuration, but not an unsupported one
  (UnsupportedOperationException from the track builder). That exception leaves
  every onStart that forwarded to the player, and the microphone's start, and
  the orchestrator's start, at the point of the call.
- **Analysis tap** (`AudioSinkVisualizer`). A Wrapper that attaches a platform
  Visualizer (the *analyzer*) to the session of the audio it passes on. It
  normalises the waveform captures, unpacks the FFT captures into magnitudes and
  hands both to a callback.
- **Playback sink** (`AudioSinkPlayer`). Sizes and builds an AudioTrack from the
  stream format, then writes every non-empty frame to it.
- **Microphone source** (`AudioSourceMic`). Builds an AudioRecord and attaches
  echo cancellation, gain control and noise suppression, in that order. It
  starts a reader thread that pushes each frame it reads to the output sink, and
  releases everything on stop.
- **Renderer** (`AudioFxRender`). Holds the latest spectrum and waveform and a
  dirty flag. Its render thread redraws a frame only when the flag is set:
  background, borders, a letterboxed background image, spectrum bars and the
  waveform polyline.
- **Orchestrator** (`ProtoPlayManager`). Creates the source and the sink from
  factories and wraps a playback sink in the analysis tap. It starts the source
  on 48 kHz, 16-bit, 480-sample stereo frames and relays the tap's analyses to
  one observer.

The Android platform is not visible to the model. Each of its answers is a field
of `Sinks.PlatformAnswers`, held read-only by the `Sinks.Platform` object. These
answers cover minimum buffer sizes, whether a build succeeds, the sessions it
assigns, effect availability, analyzer capture limits and whether recording
starts. Every platform call the core makes, and every entry into a sink, is
appended as an `Event` to `Platform.log`.

The properties are stated over this trace. `Delivered(before, after, s, c)` says
that a call `c` on sink `s` was made. It also says that the entries it caused
are exactly `Entries(Chain(s), c)`: one entry per sink of the chain, outermost
first. `Chain(s)` is the list of sinks a call passes through. The renderer's
shared state is the value `Render.RenderState`. Its operations are functions,
and the class methods are proved equal to them.

Modules and files:

- `audio.dfy` (`Audio`): shared value types.
- `sinks.dfy` (`Sinks`): sink chain, tap, player and trace.
- `visualization.dfy` (`Visualization`): the tap's numeric transforms.
- `playback.dfy` (`Playback`): track sizing.
- `capture.dfy` (`Capture`): recorder format and the reader loop.
- `mic.dfy` (`Mic`): the microphone source.
- `render.dfy` (`Render`): the renderer.
- `manager.dfy` (`Manager`): the orchestrator.

Two behaviours of the source worth noting:

- The tap's `onStop` forwards the stop first, then disables and releases the
  analyzer. It does not clear its reference to the analyzer.
- Setting the renderer's background colour or image does not set the dirty flag,
  so the change appears only with the next data update.

## Model

| member | source | states |
|---|---|---|
| Sinks.Wrapper.OnStart | app/src/main/java/com/rex/proto/kirin/AudioSink.java:19-23 | The call enters the wrapper and then every sink of its chain, in order, with the same four arguments. Nothing else enters a sink. Without an inner sink, only the wrapper's own entry is recorded. The start escapes iff the log ends in a track build that threw, which the inner sink passed on. |
| Sinks.Wrapper.OnData | app/src/main/java/com/rex/proto/kirin/AudioSink.java:25-29 | The frame (buffer, offset, size, timestamp) reaches every sink of the chain unchanged. Without an inner sink it is dropped after the wrapper. |
| Sinks.Wrapper.OnStop | app/src/main/java/com/rex/proto/kirin/AudioSink.java:31-35 | Each sink of the chain receives exactly one onStop. Without an inner sink, nothing follows the wrapper's entry. |
| Sinks.Wrapper.constructor | app/src/main/java/com/rex/proto/kirin/AudioSink.java:15-17 | The wrapper's chain is itself followed by the inner sink's chain, and the wrapper is well formed. |
| Sinks.Deliver | app/src/main/java/com/rex/proto/kirin/AudioSink.java:9-11 | Calling any sink through the interface records exactly the chain's entries, in order, after the prefix it started from. The call escapes iff the log ends in a track build that threw, and only onStart can escape. |
| Sinks.ChainDistinct | app/src/main/java/com/rex/proto/kirin/AudioSink.java:13-36 | A well-formed chain starts with its own sink and never repeats a sink, so a call reaches each sink once. |
| Sinks.EntriesTo | app/src/main/java/com/rex/proto/kirin/AudioSink.java:18-35 | One call on a chain without repeats enters each of its sinks exactly once and no other sink. |
| Sinks.FanoutTo | app/src/main/java/com/rex/proto/kirin/AudioSink.java:18-35 | A run of calls on a chain without repeats reaches each sink of it as that same run, in the same order. |
| Sinks.ChainReceivesSameCalls | app/src/main/java/com/rex/proto/kirin/AudioSink.java:13-36 | Every sink of a well-formed chain, the innermost included, receives exactly the calls made on the outermost one, in order. |
| Sinks.AudioSinkVisualizer.constructor | app/src/main/java/com/rex/proto/kirin/AudioSinkVisualizer.java:34-37 | The tap wraps its inner sink, like a Wrapper, and starts with no analyzer, no provider and no callback. |
| Sinks.AudioSinkVisualizer.SetSessionProvider | app/src/main/java/com/rex/proto/kirin/AudioSinkVisualizer.java:39-43 | Replaces the provider and keeps the analyzer and the callback. |
| Sinks.AudioSinkVisualizer.SetCallback | app/src/main/java/com/rex/proto/kirin/AudioSinkVisualizer.java:45-49 | Replaces the callback and keeps the analyzer and the provider. |
| Sinks.AudioSinkVisualizer.OnStart | app/src/main/java/com/rex/proto/kirin/AudioSinkVisualizer.java:52-75 | The start reaches the whole chain first. If the inner onStart threw, the exception passes on and no analyzer is requested. Otherwise the analyzer request comes last, on the provider's session (0 without a provider), with the smallest capture size and the rate capped at 20000. A failing constructor keeps the old analyzer; otherwise the new one is kept. |
| Sinks.AudioSinkVisualizer.RequestAnalyzer | app/src/main/java/com/rex/proto/kirin/AudioSinkVisualizer.java:56-74 | One analyzer request on the session, with the capture settings. The analyzer is replaced unless its constructor fails. |
| Sinks.AudioSinkVisualizer.OnData | app/src/main/java/com/rex/proto/kirin/AudioSinkVisualizer.java:78-81 | The frame reaches the whole chain unaltered. The tap's own state is unchanged. |
| Sinks.AudioSinkVisualizer.OnStop | app/src/main/java/com/rex/proto/kirin/AudioSinkVisualizer.java:84-92 | The stop reaches the whole chain first. Then, only if an analyzer exists, it is disabled and then released. Nothing else happens. |
| Sinks.AudioSinkVisualizer.OnWaveFormDataCapture | app/src/main/java/com/rex/proto/kirin/AudioSinkVisualizer.java:97-110 | Exactly one WAV delivery of the normalised capture if a callback is set, and nothing otherwise. |
| Sinks.AudioSinkVisualizer.OnFftDataCapture | app/src/main/java/com/rex/proto/kirin/AudioSinkVisualizer.java:112-131 | The listener completes iff the capture has at least two bytes. It then makes one FFT delivery of the unpacked magnitudes, only if a callback is set. |
| Visualization.CaptureRate | app/src/main/java/com/rex/proto/kirin/AudioSinkVisualizer.java:60 | The rate is at most 20000 and at most the platform maximum, and equals one of the two. |
| Visualization.Level | app/src/main/java/com/rex/proto/kirin/AudioSinkVisualizer.java:103 | Every byte maps into [0, 1]: -128 maps to 0 and 127 maps to 1. |
| Visualization.NormalizeWaveform | app/src/main/java/com/rex/proto/kirin/AudioSinkVisualizer.java:100-104 | The filled array has one level per captured byte, each in [0, 1], and equals the waveform. |
| Visualization.ComputeMagnitudes | app/src/main/java/com/rex/proto/kirin/AudioSinkVisualizer.java:115-124 | The loop's array equals the packed-spectrum unpacking, for every capture of at least two bytes. |
| Visualization.SpectrumShape | app/src/main/java/com/rex/proto/kirin/AudioSinkVisualizer.java:115-124 | There are n/2+1 magnitudes: DC from byte 0, Nyquist from byte 1, and inner bin k from bytes 2k and 2k+1. All are non-negative when hypot is a true hypotenuse. |
| Visualization.HypotOfSquare | app/src/main/java/com/rex/proto/kirin/AudioSinkVisualizer.java:121 | For integers whose squares sum to a perfect square, the hypotenuse is exactly that root. |
| Visualization.SpectrumExample | app/src/main/java/com/rex/proto/kirin/AudioSinkVisualizer.java:115-124 | The packed capture [10, 6, 3, 4] unpacks to [10, 5, 6]. |
| Sinks.AudioSinkPlayer.constructor | app/src/main/java/com/rex/proto/kirin/AudioSinkPlayer.java:27-30 | Records the voice-call flag. There is no track and no provider yet, and nothing is released. |
| Sinks.AudioSinkPlayer.SetSessionProvider | app/src/main/java/com/rex/proto/kirin/AudioSinkPlayer.java:32-36 | Replaces the provider and keeps the track. |
| Sinks.AudioSinkPlayer.OnStart | app/src/main/java/com/rex/proto/kirin/AudioSinkPlayer.java:39-97 | The track is requested with the format's mask, encoding and buffer size, and with the provider's session only when positive. A built track is kept with that session, or with the generated one, and is not released. A rejected build keeps the previous track and is only logged. An unsupported build keeps the previous track and escapes, and it is the only outcome that escapes. |
| Sinks.AudioSinkPlayer.OnData | app/src/main/java/com/rex/proto/kirin/AudioSinkPlayer.java:100-113 | Play and a write of exactly `size` bytes from `offset` happen iff size > 0, the offset is within the buffer, a track exists and it has not been released. Otherwise the frame is dropped. |
| Sinks.AudioSinkPlayer.OnStop | app/src/main/java/com/rex/proto/kirin/AudioSinkPlayer.java:116-126 | A track that exists and is not yet released is stopped and then released. A released track throws at the stop, which is caught, so nothing happens. The track stays released from then on. |
| Sinks.AudioSinkPlayer.SessionId | app/src/main/java/com/rex/proto/kirin/AudioSinkPlayer.java:128-130 | The track's session, or 0 without a track. |
| Sinks.SupportedTracksNeverEscape | app/src/main/java/com/rex/proto/kirin/AudioSinkPlayer.java:79-96 | When every track configuration either builds or is rejected, no log ends in an escaped track build. |
| Playback.OutChannels | app/src/main/java/com/rex/proto/kirin/AudioSinkPlayer.java:41 | The output stereo mask iff two channels, the output mono mask otherwise. |
| Playback.OutEncoding | app/src/main/java/com/rex/proto/kirin/AudioSinkPlayer.java:42-50 | PCM16 iff 16 bits and float iff 32 bits. Every other width is PCM8, and the default encoding is never chosen. |
| Playback.MinBufferSize | app/src/main/java/com/rex/proto/kirin/AudioSinkPlayer.java:55-59 | The platform's value when positive, otherwise the fallback. The fallback holds at least eight 480-sample frames of every channel. |
| Playback.TrackBufferSize | app/src/main/java/com/rex/proto/kirin/AudioSinkPlayer.java:60 | Twice the minimum, hence even, and positive for widths of at least 8 bits and at least one channel. |
| Playback.RequestedSession | app/src/main/java/com/rex/proto/kirin/AudioSinkPlayer.java:74-78 | A session is requested iff the provider's value is positive, and it is that value. |
| Playback.DefaultStreamFallback | app/src/main/java/com/rex/proto/kirin/AudioSinkPlayer.java:56-60 | For the default stream with no platform minimum, the track asks for 122880 bytes. |
| Capture.InChannels | app/src/main/java/com/rex/proto/kirin/AudioSourceMic.java:57 | The input stereo mask iff two channels, the input mono mask otherwise. |
| Capture.InEncoding | app/src/main/java/com/rex/proto/kirin/AudioSourceMic.java:58-69 | 8, 16 and 32 bits map to PCM8, PCM16 and float. The default encoding is chosen iff the width is none of these. |
| Capture.FrameSize | app/src/main/java/com/rex/proto/kirin/AudioSourceMic.java:141 | For whole-byte widths, the frame is exactly samples × channels × bytes per sample. |
| Capture.DefaultFrameSize | app/src/main/java/com/rex/proto/kirin/AudioSourceMic.java:141 | 480 samples of 16-bit stereo make a 1920-byte frame. |
| Audio.Trunc | app/src/main/java/com/rex/proto/kirin/AudioFxRender.java:163-164 | A Java `(int)` cast truncates toward zero. For a non-negative value the result is at most the value and less than one below it. For a negative value it is at least the value and less than one above it. |
| Capture.StopIndex | app/src/main/java/com/rex/proto/kirin/AudioSourceMic.java:199-203 | Every read before the index succeeded, and the read at the index failed. |
| Capture.ReadsPerformed | app/src/main/java/com/rex/proto/kirin/AudioSourceMic.java:199-219 | The loop reads everything, or stops right after its first failed read. |
| Capture.ReaderCallsAreFrames | app/src/main/java/com/rex/proto/kirin/AudioSourceMic.java:199-219 | Every call the reader makes is onData(buffer, 0, r, t) with r > 0. The sizes are exactly the positive results before the first failure, in order. |
| Capture.ZeroReadsEmitNothing | app/src/main/java/com/rex/proto/kirin/AudioSourceMic.java:218 | Empty reads produce no call and do not stop the loop. |
| Capture.ReadsAfterFailureIgnored | app/src/main/java/com/rex/proto/kirin/AudioSourceMic.java:201-203 | After a failed read, whatever the recorder would return next changes neither the reads nor the calls. |
| Capture.ReaderExample | app/src/main/java/com/rex/proto/kirin/AudioSourceMic.java:199-219 | Reads of 3, 0, 5, -1 and 7 bytes give two frames (3 then 5), and the loop stops after four reads. |
| Mic.PlannedRecorder | app/src/main/java/com/rex/proto/kirin/AudioSourceMic.java:70-81 | The recorder uses the source, rate, input encoding and mask of the format, and twice the platform minimum buffer. |
| Mic.AttachedEffectsShape | app/src/main/java/com/rex/proto/kirin/AudioSourceMic.java:89-132 | The kept effects are exactly the kinds the platform both offers and creates, each on the recorder's session. |
| Mic.AllEffectsPresent | app/src/main/java/com/rex/proto/kirin/AudioSourceMic.java:89-132 | With every effect offered, created and on by default, the effects kept are echo canceller, gain control and noise suppressor, in that order, and none is enabled explicitly. |
| Mic.AudioSourceMic.constructor | app/src/main/java/com/rex/proto/kirin/AudioSourceMic.java:32-44 | Records the audio source. There are no effects, output, recorder or thread yet. |
| Mic.AudioSourceMic.SetOutput | app/src/main/java/com/rex/proto/kirin/AudioSourceMic.java:47-51 | Replaces the output and keeps everything else. |
| Mic.AudioSourceMic.SessionId | app/src/main/java/com/rex/proto/kirin/AudioSourceMic.java:184-186 | The recorder's session, or 0 without a recorder. |
| Mic.AudioSourceMic.AttachEffect | app/src/main/java/com/rex/proto/kirin/AudioSourceMic.java:89-102 | An effect is kept iff it is available and created. It is enabled only when it is off by default. |
| Mic.AudioSourceMic.AttachEffects | app/src/main/java/com/rex/proto/kirin/AudioSourceMic.java:89-132 | The three effects are tried in order. Exactly the attached ones are appended to the list, with the enables they need. |
| Mic.AudioSourceMic.OpenRecorder | app/src/main/java/com/rex/proto/kirin/AudioSourceMic.java:70-87 | A built recorder replaces the old one. An unsupported build is caught and keeps the old one. A rejected build escapes. |
| Mic.AudioSourceMic.Start | app/src/main/java/com/rex/proto/kirin/AudioSourceMic.java:55-150 | A rejected build throws IllegalArgumentException. An unsupported build with no earlier recorder throws NullPointerException. In both cases nothing else changes. Otherwise the effects are attached. If recording does not start, the result is false and no sink is called. If it starts, the output's whole chain receives onStart with the computed frame size. If that onStart threw, start throws UnsupportedOperationException after recording started, and no reader thread starts. Otherwise the reader thread starts with that size and the result is the recording state. |
| Mic.AudioSourceMic.Begin | app/src/main/java/com/rex/proto/kirin/AudioSourceMic.java:89-150 | With a recorder in place: the effects attached are appended. If recording starts, the output's chain receives one onStart; then either start throws UnsupportedOperationException with no thread, or the reader starts and the result is the recording state. If recording does not start, the result is false and no sink is called. |
| Mic.AudioSourceMic.Launch | app/src/main/java/com/rex/proto/kirin/AudioSourceMic.java:141-148 | The output's chain receives onStart with the frame size. If that escaped, no thread starts. Otherwise the reader thread starts on that frame size, and its start is the last event. |
| Mic.AudioSourceMic.RunReader | app/src/main/java/com/rex/proto/kirin/AudioSourceMic.java:195-224 | A negative frame size escapes the thread before any read. Otherwise it reads until the first failure. The entries the run makes are exactly every reader call fanned out over the output's chain, and there are none without an output or without a recorder. |
| Mic.AudioSourceMic.ReadFrames | app/src/main/java/com/rex/proto/kirin/AudioSourceMic.java:199-219 | The loop makes exactly as many reads as the results allow, and the output's chain receives exactly the reader's calls, fanned out, in order. |
| Mic.AudioSourceMic.Stop | app/src/main/java/com/rex/proto/kirin/AudioSourceMic.java:153-182 | Without a recorder it throws NullPointerException and changes nothing. Otherwise the recording stops and the thread is joined. Next the output's whole chain receives one onStop. Then the effects are released in order, followed by the recorder. Recorder, thread and effect list end empty. |
| Mic.AudioSourceMic.ReleaseEffects | app/src/main/java/com/rex/proto/kirin/AudioSourceMic.java:174-177 | One release per effect, in list order, and the list ends empty. |
| Render.AudioFxRender.constructor | app/src/main/java/com/rex/proto/kirin/AudioFxRender.java:21-32 | No surface, thread, data or image. Not dirty. White background. |
| Render.SetColor | app/src/main/java/com/rex/proto/kirin/AudioFxRender.java:34-38 | Only the background colour changes; the dirty flag is untouched. |
| Render.SetImage | app/src/main/java/com/rex/proto/kirin/AudioFxRender.java:40-47 | Only the background image changes; the dirty flag is untouched. |
| Render.AudioFxRender.SetBackgroundColor | app/src/main/java/com/rex/proto/kirin/AudioFxRender.java:34-38 | The object's new state is SetColor of the old one. |
| Render.AudioFxRender.SetBackgroundImage | app/src/main/java/com/rex/proto/kirin/AudioFxRender.java:40-47 | The object's new state is SetImage of the old one. |
| Render.SurfaceCreated | app/src/main/java/com/rex/proto/kirin/AudioFxRender.java:50-58 | The surface is taken. A render thread starts only if none exists. Nothing else changes. |
| Render.AudioFxRender.OnSurfaceCreated | app/src/main/java/com/rex/proto/kirin/AudioFxRender.java:50-58 | The object's new state is SurfaceCreated of the old one. |
| Render.SurfaceChanged | app/src/main/java/com/rex/proto/kirin/AudioFxRender.java:61-64 | Only the surface is replaced. |
| Render.AudioFxRender.OnSurfaceChanged | app/src/main/java/com/rex/proto/kirin/AudioFxRender.java:61-64 | The object's new state is SurfaceChanged of the old one. |
| Render.SurfaceDestroyed | app/src/main/java/com/rex/proto/kirin/AudioFxRender.java:66-84 | Thread and surface are both gone. Data, flag and background are kept. |
| Render.AudioFxRender.OnSurfaceDestroyed | app/src/main/java/com/rex/proto/kirin/AudioFxRender.java:66-84 | The object's new state is SurfaceDestroyed of the old one. |
| Render.Apply | app/src/main/java/com/rex/proto/kirin/AudioFxRender.java:86-98 | An update replaces only its own data field and sets the dirty flag. |
| Render.AudioFxRender.UpdateFftData | app/src/main/java/com/rex/proto/kirin/AudioFxRender.java:86-91 | The object's new state is the spectrum update applied to the old one. |
| Render.AudioFxRender.UpdateWavData | app/src/main/java/com/rex/proto/kirin/AudioFxRender.java:93-98 | The object's new state is the waveform update applied to the old one. |
| Render.ApplyAll | app/src/main/java/com/rex/proto/kirin/AudioFxRender.java:86-98 | A run of updates changes only the two data fields and the flag. |
| Render.Step | app/src/main/java/com/rex/proto/kirin/AudioFxRender.java:124-205 | When not dirty, the thread waits and nothing changes. A frame is posted iff the state is dirty, a surface and a canvas exist, and the spectrum is not empty. A posted frame is drawn from the current state and clears the flag. In every other dirty case the thread finishes. |
| Render.AudioFxRender.RenderStep | app/src/main/java/com/rex/proto/kirin/AudioFxRender.java:124-205 | One pass of the render loop gives Step's result and Step's next state. |
| Render.AudioFxRender.Compose | app/src/main/java/com/rex/proto/kirin/AudioFxRender.java:152-197 | The drawing calls are exactly the frame drawn from the current state. An empty spectrum yields no frame, and that is the only case without one. |
| Render.Coalescing | app/src/main/java/com/rex/proto/kirin/AudioFxRender.java:86-98 | Any non-empty run of updates leaves the state dirty, holding the latest spectrum and the latest waveform. |
| Render.CoalescedPass | app/src/main/java/com/rex/proto/kirin/AudioFxRender.java:124-199 | After a burst of updates, one pass posts one frame drawn from the latest data. The pass after it waits. |
| Render.LetterboxFits | app/src/main/java/com/rex/proto/kirin/AudioFxRender.java:159-168 | The scaled image lies inside the canvas and fills one of its dimensions. It is centred to within one pixel on both axes. |
| Render.LetterboxExample | app/src/main/java/com/rex/proto/kirin/AudioFxRender.java:159-172 | A 50×50 image on a 200×100 canvas is drawn at (50, 0)–(150, 100). |
| Render.SpectrumBars | app/src/main/java/com/rex/proto/kirin/AudioFxRender.java:179-186 | There is one bar per inner bin, none for DC or Nyquist. |
| Render.SpectrumBarsPlacement | app/src/main/java/com/rex/proto/kirin/AudioFxRender.java:176-186 | Bar j is a vertical line at width/n·(j+1), rising from the bottom edge. It stays within the canvas for magnitudes in [0, 256]. |
| Render.SpectrumIgnoresEnds | app/src/main/java/com/rex/proto/kirin/AudioFxRender.java:177-179 | The DC and Nyquist values do not affect the bars. |
| Render.DrawSpectrum | app/src/main/java/com/rex/proto/kirin/AudioFxRender.java:175-187 | The drawing loop produces exactly the spectrum bars. |
| Render.WaveSegments | app/src/main/java/com/rex/proto/kirin/AudioFxRender.java:190-197 | There is one segment per pair of neighbouring levels. |
| Render.WaveSegmentsSpan | app/src/main/java/com/rex/proto/kirin/AudioFxRender.java:189-198 | With fewer than two levels nothing is drawn. Otherwise the polyline runs from x = 0 to x = width without gaps, and levels in [0, 1] stay between height/6 and height/2. |
| Render.DrawWaveform | app/src/main/java/com/rex/proto/kirin/AudioFxRender.java:189-198 | The drawing loop produces exactly the waveform segments. |
| Manager.ProtoPlayManager.constructor | app/src/main/java/com/rex/proto/kirin/ProtoPlayManager.java:13-27 | The default factories are a voice-communication microphone and a voice-call player. There is no source, sink or observer yet. |
| Manager.ProtoPlayManager.SetSourceFactory | app/src/main/java/com/rex/proto/kirin/ProtoPlayManager.java:29-32 | Replaces the source factory and keeps everything else. |
| Manager.ProtoPlayManager.SetSink | app/src/main/java/com/rex/proto/kirin/ProtoPlayManager.java:34-37 | Replaces the sink factory and keeps everything else. |
| Manager.ProtoPlayManager.SetCallback | app/src/main/java/com/rex/proto/kirin/ProtoPlayManager.java:39-42 | Replaces the observer and keeps everything else. |
| Manager.Observed | app/src/main/java/com/rex/proto/kirin/ProtoPlayManager.java:52-59 | At most one notification: WAV goes to onWavData and FFT to onFftData. There is none without an observer or for another tag. |
| Manager.ProtoPlayManager.OnAnalysis | app/src/main/java/com/rex/proto/kirin/ProtoPlayManager.java:52-59 | The bridge notifies the current observer exactly as Observed says. |
| Manager.BridgeRelaysWaveform | app/src/main/java/com/rex/proto/kirin/AudioSinkVisualizer.java:97-110 | A waveform the tap hands to the manager's bridge reaches the observer as onWavData unchanged: one level in [0, 1] per captured byte. |
| Manager.BridgeRelaysSpectrum | app/src/main/java/com/rex/proto/kirin/AudioSinkVisualizer.java:112-131 | A spectrum the tap hands to the manager's bridge reaches the observer as onFftData unchanged: n/2+1 magnitudes for n bytes, none negative when hypot is a true hypotenuse. |
| Manager.CreateSource | app/src/main/java/com/rex/proto/kirin/ProtoPlayManager.java:46 | No factory gives no source. A microphone factory gives a fresh, idle microphone on its audio source. |
| Manager.CreateSink | app/src/main/java/com/rex/proto/kirin/ProtoPlayManager.java:47-62 | A player factory gives a fresh player, with no track and nothing released, wrapped in a fresh tap. The tap's provider is the player's session and its callback is the manager's bridge. The chain is exactly [tap, player]. |
| Manager.ProtoPlayManager.Start | app/src/main/java/com/rex/proto/kirin/ProtoPlayManager.java:44-68 | The factories determine the source and the sink, and a player always ends up behind the tap. The source is wired to the sink and started. A rejected or unsupported recorder surfaces as the matching exception. When recording starts, the sink's chain receives exactly one onStart(48000, 16, 1920, 2). The start throws UnsupportedOperationException, with no reader thread, iff that onStart ended in a track build that threw. Otherwise the result is true, and it is always true when every track configuration builds or is rejected. |
| Manager.StartMic | app/src/main/java/com/rex/proto/kirin/ProtoPlayManager.java:63-66 | Wiring and starting a microphone gives the chain exactly one onStart of the default stream, or no entry when recording does not start. The start throws iff that onStart escaped, and the reader thread runs iff it did not. |
| Manager.ProtoPlayManager.Stop | app/src/main/java/com/rex/proto/kirin/ProtoPlayManager.java:70-77 | Stops the source if there is one, then drops the sink and returns true. A microphone with no recorder throws NullPointerException before the sink is dropped. A stopped microphone's chain receives exactly one onStop. |
| Manager.StopMic | app/src/main/java/com/rex/proto/kirin/ProtoPlayManager.java:72-74 | Stopping a recording microphone gives its chain exactly one onStop and leaves the microphone idle. |

## Left out

- Threads and synchronisation. Each thread's body is a method:
  - the reader loop: `Mic.AudioSourceMic.RunReader`;
  - one pass of the render loop: `Render.AudioFxRender.RenderStep`.

  Interleavings, `wait`/`notifyAll`, `interrupt` and `join` are not modelled. A
  join is one `ReaderJoined` event, and a destroyed surface ends the render
  thread at once.
- The render loop's exit on interrupt, and an `InterruptedException` from `join`
  or `wait`, are not modelled.
- Android itself: AudioTrack, AudioRecord, the Visualizer, the audio effects and
  the Surface. Every answer they give is a field of `Sinks.PlatformAnswers`, and
  every call the core makes is an `Event` in the trace.
- Floating point. Magnitudes, levels, ratios and drawing coordinates are exact
  reals, and Math.hypot is a parameter.
- `Render.Letterbox`: does not model the `float` rounding of the ratio before the
  truncating `(int)` casts; the casts themselves are modelled.
- The reader's timestamps (Math.round of the clock in microseconds) are a
  parameter: one value per read.
- Buffer contents. A ByteBuffer is its capacity; the bytes read and written are
  not tracked.
- `Capture.FrameSize`: does not model 32-bit overflow of `samplePerFrame *
  numChannels * sampleBits`, and states its exact value only for whole-byte
  widths and non-negative arguments.
- `Playback.FallbackMinBufferSize`: does not model 32-bit overflow of the
  fallback product.
- `Sinks.AudioSinkPlayer.OnStop`: does not model `AudioTrack.stop` throwing on
  a track that was built but never initialised, which skips the release. The
  throw on an already released track is modelled.
- `Sinks.AudioSinkVisualizer.OnStop`: a second onStop disables and releases the
  already released analyzer again. The platform's response to that is not
  modelled.
- `Render.AudioFxRender.UpdateFftData`: the `float[]` handed to the renderer is
  kept by reference in the source. It is a value here, so later writes by the
  caller into that array are not modelled.
- `Mic.AudioSourceMic.constructor`: the effect query it logs has no effect on
  the state and is left out.
- The AudioSource interface (AudioSource.java) and the session-provider
  interface are modelled as the `Manager.Source` and `Sinks.SessionProvider`
  datatypes. Sources and sinks from outside the core are opaque ids: the model
  records that they were called, and not what they do.
- `Manager.ProtoPlayManager.Start`: does not restate the tap's provider and
  callback. `Manager.CreateSink` states them.
- The view model, activities, fragments, preferences and all logging are not
  part of this model.
