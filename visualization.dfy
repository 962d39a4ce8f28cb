/** The numeric transforms the visualizer applies to what the platform analyzer
    captures (AudioSinkVisualizer's data-capture listener), and the small
    choices it makes when it attaches the analyzer. */
module Visualization {
  import opened Audio

  /** Callback tags. */
  const WAV: int := 1
  const FFT: int := 2

  /** Fixed capture-rate ceiling, in milliHertz. */
  const DEFAULT_CAPTURE_RATE: int := 20000

  /** Capture rate requested from the analyzer: the lesser of the fixed default and
      the platform maximum. */
  function CaptureRate(maxCaptureRate: int): (r: int)
    ensures r <= DEFAULT_CAPTURE_RATE && r <= maxCaptureRate
    ensures r == DEFAULT_CAPTURE_RATE || r == maxCaptureRate
  {
    Min(DEFAULT_CAPTURE_RATE, maxCaptureRate)
  }

  /** One waveform sample: a byte biased by 128, scaled by 1/255. */
  function Level(b: Byte): (r: real)
    ensures 0.0 <= r <= 1.0
    ensures b == -128 ==> r == 0.0
    ensures b == 127 ==> r == 1.0
    ensures b == 0 ==> r == 128.0 / 255.0
  {
    (b + 128) as real / 255.0
  }

  /** The normalised waveform: one level per captured byte. */
  function Waveform(waveform: seq<Byte>): seq<real>
  {
    seq(|waveform|, i requires 0 <= i < |waveform| => Level(waveform[i]))
  }

  /** The listener's loop, filling a fresh float array. */
  method NormalizeWaveform(waveform: seq<Byte>) returns (wave: seq<real>)
    ensures wave == Waveform(waveform)
    ensures |wave| == |waveform|
    ensures forall i :: 0 <= i < |wave| ==> 0.0 <= wave[i] <= 1.0
  {
    var n := |waveform|;
    var a := new real[n];
    for i := 0 to n
      invariant forall j :: 0 <= j < i ==> a[j] == Level(waveform[j])
    {
      a[i] := Level(waveform[i]);
    }
    wave := a[..];
  }

  /** `h` behaves as Math.hypot on integers: the non-negative square root of the
      sum of squares. */
  ghost predicate IsHypot(h: (int, int) -> real)
  {
    forall a: int, b: int :: h(a, b) >= 0.0 && h(a, b) * h(a, b) == (a * a + b * b) as real
  }

  /** Unpacks the analyzer's packed spectrum (DC real, Nyquist real, then real and
      imaginary parts of each bin in turn) into `n/2 + 1` magnitudes. `hypot` stands
      for Math.hypot. The unpacking reads bytes 0 and 1, so it needs two of them. */
  function Spectrum(fft: seq<Byte>, hypot: (int, int) -> real): seq<real>
    requires |fft| >= 2
  {
    var n := |fft|;
    seq(n / 2 + 1, k requires 0 <= k <= n / 2 =>
      if k == 0 then Abs(fft[0]) as real
      else if k == n / 2 then Abs(fft[1]) as real
      else hypot(fft[2 * k], fft[2 * k + 1]))
  }

  /** The listener's unpacking, as it is written: DC and Nyquist first, then a loop
      over the inner bins. */
  method ComputeMagnitudes(fft: seq<Byte>, hypot: (int, int) -> real) returns (magnitudes: seq<real>)
    requires |fft| >= 2
    ensures magnitudes == Spectrum(fft, hypot)
  {
    var n := |fft|;
    var a := new real[n / 2 + 1];
    a[0] := Abs(fft[0]) as real;
    a[n / 2] := Abs(fft[1]) as real;
    for k := 1 to n / 2
      invariant a[0] == Abs(fft[0]) as real && a[n / 2] == Abs(fft[1]) as real
      invariant forall j :: 1 <= j < k ==> a[j] == hypot(fft[2 * j], fft[2 * j + 1])
    {
      var i := k * 2;
      a[k] := hypot(fft[i], fft[i + 1]);
    }
    magnitudes := a[..];
  }

  /** Shape of the unpacked spectrum: `n/2 + 1` bins, DC from byte 0, Nyquist from
      byte 1, every inner bin `k` from bytes `2k` and `2k+1`, and all of them
      non-negative when `hypot` is a true hypotenuse. */
  lemma SpectrumShape(fft: seq<Byte>, hypot: (int, int) -> real)
    requires |fft| >= 2
    ensures var m := Spectrum(fft, hypot);
      && |m| == |fft| / 2 + 1
      && m[0] == Abs(fft[0]) as real
      && m[|fft| / 2] == Abs(fft[1]) as real
      && (forall k :: 1 <= k < |fft| / 2 ==> m[k] == hypot(fft[2 * k], fft[2 * k + 1]))
      && (IsHypot(hypot) ==> forall k :: 0 <= k < |m| ==> m[k] >= 0.0)
  {
  }

  /** Squaring is strictly increasing on the non-negative reals. */
  lemma SquareIncreasing(p: real, q: real)
    requires 0.0 <= p < q
    ensures p * p < q * q
  {
    var pp, pq, qq := p * p, p * q, q * q;
    assert pp <= pq;
    assert pq < qq;
  }

  /** A hypotenuse of two integers whose squares sum to a perfect square is that root. */
  lemma HypotOfSquare(h: (int, int) -> real, a: int, b: int, c: nat)
    requires IsHypot(h)
    requires a * a + b * b == c * c
    ensures h(a, b) == c as real
  {
    var r, x := h(a, b), c as real;
    assert r >= 0.0 && r * r == (a * a + b * b) as real;
    assert (c * c) as real == x * x;
    if r < x {
      SquareIncreasing(r, x);
    } else if x < r {
      SquareIncreasing(x, r);
    }
  }

  /** The packed spectrum [10, 6, 3, 4] unpacks to [10, 5, 6]. */
  lemma SpectrumExample(hypot: (int, int) -> real)
    requires IsHypot(hypot)
    ensures Spectrum([10, 6, 3, 4], hypot) == [10.0, 5.0, 6.0]
  {
    HypotOfSquare(hypot, 3, 4, 5);
    SpectrumOfFour(hypot);
  }

  lemma SpectrumOfFour(hypot: (int, int) -> real)
    requires hypot(3, 4) == 5.0
    ensures Spectrum([10, 6, 3, 4], hypot) == [10.0, 5.0, 6.0]
  {
    var m := Spectrum([10, 6, 3, 4], hypot);
    assert Abs(10) == 10 && Abs(6) == 6;
    assert m[0] == 10.0 && m[1] == 5.0 && m[2] == 6.0;
  }
}
