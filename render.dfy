/** AudioFxRender: keeps the latest spectrum and waveform it is given and, on its
    render thread, redraws them over a background only when something changed.

    The render thread's loop is modelled one iteration at a time (`Step`): a pass
    either waits (nothing changed), posts one frame (its draw list is a function of
    the stored data and the canvas bounds), or ends the thread. */
module Render {
  import opened Audio

  /** android.graphics.Color values, as Java ints. */
  const WHITE: int := -1
  const DKGRAY: int := -12303292
  const RED: int := -65536
  const BLUE: int := -16776961

  /** Width of the border and waveform strokes. */
  const STROKE: real := 3.0

  /** A bitmap's size; bitmaps are never empty. */
  type Dim = n: int | n > 0 witness 1

  datatype Image = Image(id: nat, width: Dim, height: Dim)

  /** The canvas clip bounds, as a width and a height. */
  datatype Bounds = Bounds(width: int, height: int)

  datatype Rect = Rect(left: int, top: int, right: int, bottom: int)

  datatype Pen = Pen(color: int, strokeWidth: real, antiAlias: bool)

  /** One canvas call. */
  datatype Draw =
    | Fill(color: int)
    | Line(x0: real, y0: real, x1: real, y1: real, pen: Pen)
    | Bitmap(image: Image, src: Rect, dst: Rect)

  datatype Surface = Surface(id: nat)

  /** The render thread, once created: running its loop, or ended. */
  datatype ThreadState = Running | Finished

  /** The renderer's fields. */
  datatype RenderState = RenderState(
    surface: Option<Surface>,
    thread: Option<ThreadState>,
    dirty: bool,
    fft: Option<seq<real>>,
    wav: Option<seq<real>>,
    image: Option<Image>,
    color: int)

  /** What one pass of the render loop does. */
  datatype StepResult = Waited | Posted(frame: seq<Draw>) | Exited

  datatype StepOutcome = StepOutcome(result: StepResult, next: RenderState)

  // ---------------------------------------------------------------------------
  // Geometry of one frame

  const BORDER_PEN: Pen := Pen(DKGRAY, STROKE, false)
  const WAVE_PEN: Pen := Pen(RED, STROKE, true)

  /** The four border lines: left, bottom, right, top. */
  function Borders(b: Bounds): seq<Draw>
  {
    var w, h := b.width as real, b.height as real;
    [Line(0.0, 0.0, 0.0, h, BORDER_PEN),
     Line(0.0, h, w, h, BORDER_PEN),
     Line(w, h, w, 0.0, BORDER_PEN),
     Line(w, 0.0, 0.0, 0.0, BORDER_PEN)]
  }

  function MinReal(a: real, b: real): real
  {
    if a < b then a else b
  }

  /** Where the background image is drawn: scaled by the smaller of the two
      bound-to-image ratios, with each side truncated to an int, and centred with
      integer halving. */
  function Letterbox(b: Bounds, image: Image): Rect
  {
    var ratio := Ratio(b, image);
    Place(b, Scale(image.width, ratio), Scale(image.height, ratio))
  }

  /** The smaller of the two bound-to-image ratios. */
  function Ratio(b: Bounds, image: Image): real
  {
    MinReal(b.width as real / image.width as real, b.height as real / image.height as real)
  }

  /** One side of the image scaled by `ratio` and truncated to an int. */
  function Scale(side: Dim, ratio: real): int
  {
    Trunc(side as real * ratio)
  }

  /** A `width` by `height` rectangle centred in the bounds with integer halving. */
  function Place(b: Bounds, width: int, height: int): Rect
  {
    var left := Quot(b.width - width, 2);
    var top := Quot(b.height - height, 2);
    Rect(left, top, left + width, top + height)
  }

  /** `k * q` stays within `k * p` when `q <= p`, for a positive `k`. */
  lemma ScaleBelow(k: real, q: real, p: real)
    requires k > 0.0 && 0.0 <= q <= p
    ensures 0.0 <= k * q <= k * p
  {
    var kq, kp := k * q, k * p;
    assert kq <= kp;
  }

  /** One side of the letterbox: the scaled side fits the bound, and equals it
      when the ratio is that side's own. */
  lemma LetterboxSide(bound: int, side: Dim, ratio: real)
    requires bound >= 0 && 0.0 <= ratio <= bound as real / side as real
    ensures 0 <= Scale(side, ratio) <= bound
    ensures ratio == bound as real / side as real ==> Scale(side, ratio) == bound
  {
    var s := side as real;
    ScaleBelow(s, ratio, bound as real / s);
    assert s * (bound as real / s) == bound as real;
  }

  /** The scaled image fits inside the bounds, fills them in at least one
      direction, and is centred: the margins on opposite sides differ by at most one
      pixel, the extra one on the right or bottom. */
  lemma LetterboxFits(b: Bounds, image: Image)
    requires b.width >= 0 && b.height >= 0
    ensures var r := Letterbox(b, image);
      && 0 <= r.left <= r.right <= b.width
      && 0 <= r.top <= r.bottom <= b.height
      && (r.right - r.left == b.width || r.bottom - r.top == b.height)
      && 0 <= (b.width - r.right) - r.left <= 1
      && 0 <= (b.height - r.bottom) - r.top <= 1
  {
    var ratio := Ratio(b, image);
    NonNegativeRatio(b.width, image.width);
    NonNegativeRatio(b.height, image.height);
    LetterboxSide(b.width, image.width, ratio);
    LetterboxSide(b.height, image.height, ratio);
    PlaceFits(b, Scale(image.width, ratio), Scale(image.height, ratio));
  }

  lemma PlaceFits(b: Bounds, width: int, height: int)
    requires 0 <= width <= b.width && 0 <= height <= b.height
    ensures var r := Place(b, width, height);
      && 0 <= r.left <= r.right <= b.width
      && 0 <= r.top <= r.bottom <= b.height
      && r.right - r.left == width && r.bottom - r.top == height
      && 0 <= (b.width - r.right) - r.left <= 1
      && 0 <= (b.height - r.bottom) - r.top <= 1
  {
    Centred(b.width, width);
    Centred(b.height, height);
  }

  lemma NonNegativeRatio(bound: int, side: Dim)
    requires bound >= 0
    ensures bound as real / side as real >= 0.0
  {
  }

  /** Halving the spare room centres a length inside a bound. */
  lemma Centred(bound: int, length: int)
    requires 0 <= length <= bound
    ensures 0 <= Quot(bound - length, 2)
    ensures Quot(bound - length, 2) + length <= bound
    ensures 0 <= bound - (Quot(bound - length, 2) + length) - Quot(bound - length, 2) <= 1
  {
  }

  /** A 50x50 image in 200x100 bounds is drawn 100x100, 50 from the left, at the top. */
  lemma LetterboxExample()
    ensures Letterbox(Bounds(200, 100), Image(0, 50, 50)) == Rect(50, 0, 150, 100)
  {
    assert Ratio(Bounds(200, 100), Image(0, 50, 50)) == 2.0;
    assert Scale(50, 2.0) == 100;
  }

  /** The line of spectrum bin `i` of `n`: at `x = W/n*i`, from the bottom up by the
      bin's magnitude scaled so that 256 reaches the top. */
  function Bar(magnitudes: seq<real>, b: Bounds, i: nat): Draw
    requires 0 < i < |magnitudes|
  {
    var w, h := b.width as real, b.height as real;
    var x := w / |magnitudes| as real * i as real;
    Line(x, h, x, h - h * magnitudes[i] / 128.0 / 2.0, Pen(BLUE, w / |magnitudes| as real, true))
  }

  /** The spectrum bars: one per bin strictly between DC and Nyquist. */
  function SpectrumBars(magnitudes: seq<real>, b: Bounds): (bars: seq<Draw>)
    ensures |bars| == Max(|magnitudes| - 2, 0)
  {
    seq(Max(|magnitudes| - 2, 0), j requires 0 <= j < Max(|magnitudes| - 2, 0) => Bar(magnitudes, b, j + 1))
  }

  /** Segment `i` of the waveform polyline, from sample `i` to sample `i + 1`. */
  function Segment(levels: seq<real>, b: Bounds, i: nat): Draw
    requires i + 1 < |levels|
  {
    var w, h := b.width as real, b.height as real;
    var span := (|levels| - 1) as real;
    Line(w * i as real / span, h / 2.0 - (h / 3.0) * levels[i],
         w * (i + 1) as real / span, h / 2.0 - (h / 3.0) * levels[i + 1],
         WAVE_PEN)
  }

  /** The waveform polyline: one segment between each pair of neighbouring samples. */
  function WaveSegments(levels: seq<real>, b: Bounds): (segments: seq<Draw>)
    ensures |segments| == Max(|levels| - 1, 0)
  {
    seq(Max(|levels| - 1, 0), i requires 0 <= i < Max(|levels| - 1, 0) => Segment(levels, b, i))
  }

  /** `k * v` lies between 0 and `k * top` for a non-negative `k` and `0 <= v <= top`. */
  lemma ScaleWithin(k: real, v: real, top: real)
    requires k >= 0.0 && 0.0 <= v <= top
    ensures 0.0 <= k * v <= k * top
  {
    var kv, kt := k * v, k * top;
    assert kt - kv == k * (top - v);
  }

  /** The bar of bin `i` starts on the bottom edge and, for a magnitude between 0
      and 256, ends inside the bounds. */
  lemma BarInside(magnitudes: seq<real>, b: Bounds, i: nat)
    requires 0 < i < |magnitudes| && b.height >= 0
    ensures Bar(magnitudes, b, i).y0 == b.height as real
    ensures 0.0 <= magnitudes[i] <= 256.0 ==> 0.0 <= Bar(magnitudes, b, i).y1 <= b.height as real
  {
    var h, m := b.height as real, magnitudes[i];
    if 0.0 <= m <= 256.0 {
      ScaleWithin(h, m, 256.0);
    }
  }

  /** Every bar is drawn at bin `j + 1`, starts on the bottom edge and, for a
      magnitude between 0 and 256, ends inside the bounds. */
  lemma SpectrumBarsPlacement(magnitudes: seq<real>, b: Bounds)
    requires |magnitudes| > 0 && b.height >= 0
    ensures var bars := SpectrumBars(magnitudes, b);
      forall j :: 0 <= j < |bars| ==>
        && bars[j].Line?
        && bars[j].x0 == bars[j].x1 == b.width as real / |magnitudes| as real * (j + 1) as real
        && bars[j].y0 == b.height as real
        && (0.0 <= magnitudes[j + 1] <= 256.0 ==> 0.0 <= bars[j].y1 <= b.height as real)
  {
    var bars := SpectrumBars(magnitudes, b);
    forall j | 0 <= j < |bars|
      ensures bars[j].y0 == b.height as real
      ensures 0.0 <= magnitudes[j + 1] <= 256.0 ==> 0.0 <= bars[j].y1 <= b.height as real
    {
      BarInside(magnitudes, b, j + 1);
    }
  }

  /** The DC and Nyquist bins (the first and the last) never affect the bars. */
  lemma SpectrumIgnoresEnds(magnitudes: seq<real>, b: Bounds, dc: real, nyquist: real)
    requires |magnitudes| > 0
    ensures SpectrumBars(magnitudes[0 := dc][|magnitudes| - 1 := nyquist], b) == SpectrumBars(magnitudes, b)
  {
    var other := magnitudes[0 := dc][|magnitudes| - 1 := nyquist];
    forall i | 0 < i < |magnitudes| - 1
      ensures Bar(other, b, i) == Bar(magnitudes, b, i)
    {
      assert other[i] == magnitudes[i];
    }
  }

  /** A level in [0, 1] is drawn between a sixth and a half of the height. */
  lemma SegmentInside(levels: seq<real>, b: Bounds, i: nat)
    requires i + 1 < |levels| && b.height >= 0 && 0.0 <= levels[i] <= 1.0
    ensures b.height as real / 6.0 <= Segment(levels, b, i).y0 <= b.height as real / 2.0
  {
    var h := b.height as real;
    ScaleWithin(h / 3.0, levels[i], 1.0);
  }

  /** The waveform is one connected polyline across the full width: it starts at
      x = 0, ends at x = W, each segment starts where the previous one ended, and
      levels in [0, 1] stay between a sixth and a half of the height. With fewer
      than two samples nothing is drawn. */
  lemma WaveSegmentsSpan(levels: seq<real>, b: Bounds)
    requires b.height >= 0
    ensures var segments := WaveSegments(levels, b);
      && (|levels| <= 1 ==> segments == [])
      && (|levels| >= 2 ==>
            && segments[0].x0 == 0.0
            && segments[|segments| - 1].x1 == b.width as real
            && (forall i :: 0 <= i < |segments| - 1 ==>
                  segments[i].x1 == segments[i + 1].x0 && segments[i].y1 == segments[i + 1].y0)
            && (forall i :: 0 <= i < |segments| && 0.0 <= levels[i] <= 1.0 ==>
                  b.height as real / 6.0 <= segments[i].y0 <= b.height as real / 2.0))
  {
    var segments := WaveSegments(levels, b);
    if |levels| >= 2 {
      WaveEnds(levels, b);
      forall i | 0 <= i < |segments| - 1
        ensures segments[i].x1 == segments[i + 1].x0 && segments[i].y1 == segments[i + 1].y0
      {
        SegmentsMeet(levels, b, i);
      }
      forall i | 0 <= i < |segments| && 0.0 <= levels[i] <= 1.0
        ensures b.height as real / 6.0 <= segments[i].y0 <= b.height as real / 2.0
      {
        SegmentInside(levels, b, i);
      }
    }
  }

  /** Segment `i` ends where segment `i + 1` starts. */
  lemma SegmentsMeet(levels: seq<real>, b: Bounds, i: nat)
    requires i + 2 < |levels|
    ensures Segment(levels, b, i).x1 == Segment(levels, b, i + 1).x0
    ensures Segment(levels, b, i).y1 == Segment(levels, b, i + 1).y0
  {
  }

  /** The first segment starts on the left edge and the last ends on the right. */
  lemma WaveEnds(levels: seq<real>, b: Bounds)
    requires |levels| >= 2
    ensures Segment(levels, b, 0).x0 == 0.0
    ensures Segment(levels, b, |levels| - 2).x1 == b.width as real
  {
    var span := (|levels| - 1) as real;
    var w := b.width as real;
    assert Segment(levels, b, |levels| - 2).x1 == w * span / span;
    var ws := w * span;
    assert ws / span == w;
  }

  /** One frame: background colour, border, the background image if any, the
      spectrum if any, the waveform if any, in that order. */
  function Frame(s: RenderState, b: Bounds): seq<Draw>
    requires s.fft.Some? ==> |s.fft.value| > 0
  {
    [Fill(s.color)] + Borders(b)
    + (if s.image.Some?
       then [Bitmap(s.image.value, Rect(0, 0, s.image.value.width, s.image.value.height), Letterbox(b, s.image.value))]
       else [])
    + (if s.fft.Some? then SpectrumBars(s.fft.value, b) else [])
    + (if s.wav.Some? then WaveSegments(s.wav.value, b) else [])
  }

  // ---------------------------------------------------------------------------
  // The renderer's state machine

  const INITIAL: RenderState := RenderState(None, None, false, None, None, None, WHITE)

  /** setBackground(color): only the colour changes; nothing is redrawn for it. */
  function SetColor(s: RenderState, color: int): (r: RenderState)
    ensures r.color == color && r.(color := s.color) == s
  {
    s.(color := color)
  }

  /** setBackground(bitmap): only the image changes; nothing is redrawn for it. */
  function SetImage(s: RenderState, image: Option<Image>): (r: RenderState)
    ensures r.image == image && r.(image := s.image) == s
  {
    s.(image := image)
  }

  /** surfaceCreated: stores the surface, and creates the render thread only when
      there is none. */
  function SurfaceCreated(s: RenderState, surface: Surface): (r: RenderState)
    ensures r.surface == Some(surface)
    ensures r.thread == (if s.thread.None? then Some(Running) else s.thread)
    ensures r.(surface := s.surface, thread := s.thread) == s
  {
    s.(surface := Some(surface), thread := if s.thread.None? then Some(Running) else s.thread)
  }

  /** surfaceChanged: only the surface changes. */
  function SurfaceChanged(s: RenderState, surface: Surface): (r: RenderState)
    ensures r.surface == Some(surface) && r.(surface := s.surface) == s
  {
    s.(surface := Some(surface))
  }

  /** surfaceDestroyed: the thread is stopped and joined, then both it and the
      surface are gone; the data is kept. */
  function SurfaceDestroyed(s: RenderState): (r: RenderState)
    ensures r.surface.None? && r.thread.None?
    ensures r.(surface := s.surface, thread := s.thread) == s
  {
    s.(surface := None, thread := None)
  }

  /** A new spectrum or waveform for the renderer. */
  datatype Update = FftUpdate(fft: Option<seq<real>>) | WavUpdate(wav: Option<seq<real>>)

  /** updateFftData / updateWavData: replaces only its own data and marks the
      renderer dirty. */
  function Apply(s: RenderState, u: Update): (r: RenderState)
    ensures r.dirty
    ensures u.FftUpdate? ==> r.fft == u.fft && r.(fft := s.fft, dirty := s.dirty) == s
    ensures u.WavUpdate? ==> r.wav == u.wav && r.(wav := s.wav, dirty := s.dirty) == s
  {
    match u
    case FftUpdate(data) => s.(fft := data, dirty := true)
    case WavUpdate(data) => s.(wav := data, dirty := true)
  }

  /** A run of updates touches only the data and the dirty flag. */
  function ApplyAll(s: RenderState, updates: seq<Update>): (r: RenderState)
    ensures r.(fft := s.fft, wav := s.wav, dirty := s.dirty) == s
  {
    if updates == [] then s
    else Apply(ApplyAll(s, updates[..|updates| - 1]), updates[|updates| - 1])
  }

  /** The spectrum the last spectrum update carried, or `current` without one. */
  function LatestFft(updates: seq<Update>, current: Option<seq<real>>): Option<seq<real>>
  {
    if updates == [] then current
    else if updates[|updates| - 1].FftUpdate? then updates[|updates| - 1].fft
    else LatestFft(updates[..|updates| - 1], current)
  }

  /** The waveform the last waveform update carried, or `current` without one. */
  function LatestWav(updates: seq<Update>, current: Option<seq<real>>): Option<seq<real>>
  {
    if updates == [] then current
    else if updates[|updates| - 1].WavUpdate? then updates[|updates| - 1].wav
    else LatestWav(updates[..|updates| - 1], current)
  }

  /** One pass of the render loop. Not dirty: it waits and changes nothing. No
      surface or no canvas: the thread ends. An empty spectrum makes reading its DC
      bin fail, which also ends the thread (the frame is never posted and the
      renderer stays dirty). Otherwise it posts the frame for the stored data and
      the canvas bounds, and is no longer dirty. */
  function Step(s: RenderState, canvas: Option<Bounds>): (o: StepOutcome)
    requires s.thread == Some(Running)
    ensures !s.dirty ==> o == StepOutcome(Waited, s)
    ensures o.result.Posted? <==>
      s.dirty && s.surface.Some? && canvas.Some? && !(s.fft.Some? && |s.fft.value| == 0)
    ensures o.result.Posted? ==> o.result.frame == Frame(s, canvas.value) && o.next == s.(dirty := false)
    ensures o.result.Exited? ==> s.dirty && o.next == s.(thread := Some(Finished))
  {
    if !s.dirty then StepOutcome(Waited, s)
    else if s.surface.None? || canvas.None? then StepOutcome(Exited, s.(thread := Some(Finished)))
    else if s.fft.Some? && |s.fft.value| == 0 then StepOutcome(Exited, s.(thread := Some(Finished)))
    else StepOutcome(Posted(Frame(s, canvas.value)), s.(dirty := false))
  }

  /** Any run of updates leaves the renderer dirty, holding the last spectrum and
      the last waveform of the run and otherwise unchanged. */
  lemma {:induction false} Coalescing(s: RenderState, updates: seq<Update>)
    requires |updates| > 0
    ensures ApplyAll(s, updates) ==
      s.(dirty := true, fft := LatestFft(updates, s.fft), wav := LatestWav(updates, s.wav))
  {
    var n := |updates| - 1;
    if n > 0 {
      Coalescing(s, updates[..n]);
    }
  }

  /** However many updates arrive before a pass, the pass draws one frame from the
      last of each, and the pass after it waits. */
  lemma CoalescedPass(s: RenderState, updates: seq<Update>, b: Bounds)
    requires |updates| > 0 && s.thread == Some(Running) && s.surface.Some?
    requires LatestFft(updates, s.fft).Some? ==> |LatestFft(updates, s.fft).value| > 0
    ensures var latest := s.(fft := LatestFft(updates, s.fft), wav := LatestWav(updates, s.wav));
            var o := Step(ApplyAll(s, updates), Some(b));
      && o.result == Posted(Frame(latest, b))
      && o.next == latest.(dirty := false)
      && Step(o.next, Some(b)) == StepOutcome(Waited, o.next)
  {
    Coalescing(s, updates);
  }

  /** The renderer object; its fields are the state above. */
  class AudioFxRender {
    var surface: Option<Surface>
    var thread: Option<ThreadState>
    var dirty: bool
    var fftData: Option<seq<real>>
    var wavData: Option<seq<real>>
    var bgImage: Option<Image>
    var bgColor: int

    function State(): RenderState
      reads this
    {
      RenderState(surface, thread, dirty, fftData, wavData, bgImage, bgColor)
    }

    constructor ()
      ensures State() == INITIAL
    {
      surface, thread, dirty := None, None, false;
      fftData, wavData, bgImage, bgColor := None, None, None, WHITE;
    }

    method SetBackgroundColor(color: int)
      modifies this
      ensures State() == SetColor(old(State()), color)
    {
      bgColor := color;
    }

    method SetBackgroundImage(image: Option<Image>)
      modifies this
      ensures State() == SetImage(old(State()), image)
    {
      bgImage := image;
    }

    method OnSurfaceCreated(s: Surface)
      modifies this
      ensures State() == SurfaceCreated(old(State()), s)
    {
      surface := Some(s);
      if thread.None? {
        thread := Some(Running);
      }
    }

    method OnSurfaceChanged(s: Surface)
      modifies this
      ensures State() == SurfaceChanged(old(State()), s)
    {
      surface := Some(s);
    }

    method OnSurfaceDestroyed()
      modifies this
      ensures State() == SurfaceDestroyed(old(State()))
    {
      if thread.Some? {
        thread := None;
      }
      surface := None;
    }

    method UpdateFftData(data: Option<seq<real>>)
      modifies this
      ensures State() == Apply(old(State()), FftUpdate(data))
    {
      fftData := data;
      dirty := true;
    }

    method UpdateWavData(data: Option<seq<real>>)
      modifies this
      ensures State() == Apply(old(State()), WavUpdate(data))
    {
      wavData := data;
      dirty := true;
    }

    /** One pass of the render thread's loop, given what locking the surface's
        canvas returns (its clip bounds, or nothing). */
    method RenderStep(canvas: Option<Bounds>) returns (result: StepResult)
      requires thread == Some(Running)
      modifies this
      ensures StepOutcome(result, State()) == Step(old(State()), canvas)
    {
      if !dirty {
        return Waited;
      }
      if surface.None? || canvas.None? {
        thread := Some(Finished);
        return Exited;
      }
      var draws := Compose(canvas.value);
      if draws.None? {
        thread := Some(Finished);
        return Exited;
      }
      dirty := false;
      return Posted(draws.value);
    }

    /** The drawing calls of one frame on a canvas with clip bounds `b`: background,
        borders, the image, the spectrum bars and the waveform segments, in order.
        An empty spectrum throws once the image is drawn (its first bin is read),
        and nothing comes of the frame. */
    method Compose(b: Bounds) returns (frame: Option<seq<Draw>>)
      ensures frame.None? <==> fftData.Some? && |fftData.value| == 0
      ensures frame.Some? ==> frame.value == Frame(State(), b)
    {
      var s := State();
      var draws := [Fill(bgColor)] + Borders(b);
      if bgImage.Some? {
        var image := bgImage.value;
        draws := draws + [Bitmap(image, Rect(0, 0, image.width, image.height), Letterbox(b, image))];
      }
      assert draws == [Fill(s.color)] + Borders(b)
        + (if s.image.Some?
           then [Bitmap(s.image.value, Rect(0, 0, s.image.value.width, s.image.value.height), Letterbox(b, s.image.value))]
           else []);
      if fftData.Some? {
        if |fftData.value| == 0 {
          return None;
        }
        var bars := DrawSpectrum(fftData.value, b);
        draws := draws + bars;
      }
      if wavData.Some? {
        var segments := DrawWaveform(wavData.value, b);
        draws := draws + segments;
      }
      return Some(draws);
    }
  }

  /** The spectrum loop: one bar for each bin from 1 to n - 2. */
  method DrawSpectrum(magnitudes: seq<real>, b: Bounds) returns (bars: seq<Draw>)
    requires |magnitudes| > 0
    ensures bars == SpectrumBars(magnitudes, b)
  {
    bars := [];
    var i := 1;
    while i < |magnitudes| - 1
      invariant 1 <= i <= Max(|magnitudes| - 1, 1)
      invariant |bars| == i - 1
      invariant forall j :: 0 <= j < |bars| ==> bars[j] == Bar(magnitudes, b, j + 1)
    {
      bars := bars + [Bar(magnitudes, b, i)];
      i := i + 1;
    }
  }

  /** The waveform loop: one segment for each sample but the last. */
  method DrawWaveform(levels: seq<real>, b: Bounds) returns (segments: seq<Draw>)
    ensures segments == WaveSegments(levels, b)
  {
    segments := [];
    var i := 0;
    while i < |levels| - 1
      invariant 0 <= i <= Max(|levels| - 1, 0)
      invariant |segments| == i
      invariant forall j :: 0 <= j < i ==> segments[j] == Segment(levels, b, j)
    {
      segments := segments + [Segment(levels, b, i)];
      i := i + 1;
    }
  }
}
