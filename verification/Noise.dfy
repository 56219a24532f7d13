/** Band-limited noise on the absolute sample grid (`_noise` of active_backend_sim.py): windows drawn
    segment by segment and filtered are windows of one infinite sequence. */
module Noises {
  import opened Results

  datatype Complex = Complex(re: real, im: real)

  const Silence: Complex := Complex(0.0, 0.0)

  function Add(x: Complex, y: Complex): Complex {
    Complex(x.re + y.re, x.im + y.im)
  }

  function Scale(h: real, x: Complex): Complex {
    Complex(h * x.re, h * x.im)
  }

  const SegmentLength := 4096
  const HalfTaps := 64

  /** Any seed and key: sample j of segment s. */
  type Draws = (int, int) -> Complex

  // --- the infinite sequences --------------------------------------------------------------------

  /** White noise at absolute sample i, negative ones included: division rounds down. */
  function White(draw: Draws, i: int): Complex {
    draw(i / SegmentLength, i % SegmentLength)
  }

  /** The first n terms of the filter sum whose newest sample is i. */
  function Sum(draw: Draws, h: seq<real>, i: int, n: nat): Complex
    requires n <= |h|
    decreases n
  {
    if n == 0 then Silence else Add(Sum(draw, h, i, n - 1), Scale(h[n - 1], White(draw, i - (n - 1))))
  }

  /** Noise at absolute sample k: white, or filtered with taps centred on k. */
  function NoiseAt(draw: Draws, h: seq<real>, k: int): Complex {
    if h == [] then White(draw, k) else Sum(draw, h, k + |h| / 2, |h|)
  }

  function Window(draw: Draws, h: seq<real>, k0: int, n: nat): (w: seq<Complex>)
    ensures |w| == n && forall i :: 0 <= i < n ==> w[i] == NoiseAt(draw, h, k0 + i)
  {
    seq(n, i => NoiseAt(draw, h, k0 + i))
  }

  // --- the window as computed ----------------------------------------------------------------------

  lemma SegmentOf(s: int, j: int)
    requires 0 <= j < SegmentLength
    ensures (s * SegmentLength + j) / SegmentLength == s && (s * SegmentLength + j) % SegmentLength == j
  {
  }

  /** The white samples from a up to b, cut from the segments that cover them. No segment covers an empty
      range that starts on a segment border, and joining no segments is an error. */
  method WhiteRange(draw: Draws, a: int, b: int) returns (r: Result<seq<Complex>>)
    requires a <= b
    ensures r.Err? <==> a == b && a % SegmentLength == 0
    ensures r.Ok? ==> |r.value| == b - a && forall i :: 0 <= i < b - a ==> r.value[i] == White(draw, a + i)
  {
    var s0, s1 := a / SegmentLength, (b - 1) / SegmentLength;
    if s1 < s0 {
      return Err(ValueError);
    }
    var w: seq<Complex> := [];
    var s := s0;
    while s <= s1
      invariant s0 <= s <= s1 + 1 && |w| == (s - s0) * SegmentLength
      invariant forall i :: 0 <= i < |w| ==> w[i] == White(draw, s0 * SegmentLength + i)
      decreases s1 - s
    {
      var g := seq(SegmentLength, j => draw(s, j));
      forall i | 0 <= i < |w + g| ensures (w + g)[i] == White(draw, s0 * SegmentLength + i) {
        if i >= |w| {
          SegmentOf(s, i - |w|);
        }
      }
      w := w + g;
      s := s + 1;
    }
    w := w[a - s0 * SegmentLength..b - s0 * SegmentLength];
    return Ok(w);
  }

  /** The first n terms of sample m of a convolution, the taps being the shorter operand. */
  function Dot(w: seq<Complex>, h: seq<real>, m: nat, n: nat): Complex
    requires n <= |h| && m + |h| <= |w|
    decreases n
  {
    if n == 0 then Silence else Add(Dot(w, h, m, n - 1), Scale(h[n - 1], w[m + |h| - 1 - (n - 1)]))
  }

  /** The same with the taps as the longer operand. */
  function DotLongTaps(w: seq<Complex>, h: seq<real>, m: nat, n: nat): Complex
    requires n <= |w| && m + |w| <= |h|
    decreases n
  {
    if n == 0 then Silence else Add(DotLongTaps(w, h, m, n - 1), Scale(h[m + |w| - 1 - (n - 1)], w[n - 1]))
  }

  /** One sample: the shorter operand slides along the longer. */
  method OneSample(w: seq<Complex>, h: seq<real>, m: nat) returns (sum: Complex)
    requires if |h| <= |w| then m + |h| <= |w| else m + |w| <= |h|
    ensures sum == if |h| <= |w| then Dot(w, h, m, |h|) else DotLongTaps(w, h, m, |w|)
  {
    sum := Silence;
    var n := 0;
    if |h| <= |w| {
      while n < |h|
        invariant 0 <= n <= |h| && sum == Dot(w, h, m, n)
      {
        sum := Add(sum, Scale(h[n], w[m + |h| - 1 - n]));
        n := n + 1;
      }
    } else {
      while n < |w|
        invariant 0 <= n <= |w| && sum == DotLongTaps(w, h, m, n)
      {
        sum := Add(sum, Scale(h[m + |w| - 1 - n], w[n]));
        n := n + 1;
      }
    }
  }

  /** `np.convolve(w, h, "valid")`: the library exchanges the operands when the taps are longer. */
  method Convolve(w: seq<Complex>, h: seq<real>) returns (out: seq<Complex>)
    requires w != [] && h != []
    ensures |h| <= |w| ==> |out| == |w| - |h| + 1 && forall m :: 0 <= m < |out| ==> out[m] == Dot(w, h, m, |h|)
    ensures |h| > |w| ==> |out| == |h| - |w| + 1 && forall m :: 0 <= m < |out| ==> out[m] == DotLongTaps(w, h, m, |w|)
  {
    out := [];
    var length := if |h| <= |w| then |w| - |h| + 1 else |h| - |w| + 1;
    var m := 0;
    while m < length
      invariant 0 <= m <= length && |out| == m
      invariant forall i :: 0 <= i < m ==> out[i] == if |h| <= |w| then Dot(w, h, i, |h|) else DotLongTaps(w, h, i, |w|)
    {
      var sum := OneSample(w, h, m);
      out := out + [sum];
      m := m + 1;
    }
  }

  /** The convolution of a stretch of white noise is the filtered sequence. */
  lemma {:induction false} DotIsSum(draw: Draws, w: seq<Complex>, h: seq<real>, a: int, m: nat, n: nat)
    requires n <= |h| && m + |h| <= |w| && forall i :: 0 <= i < |w| ==> w[i] == White(draw, a + i)
    ensures Dot(w, h, m, n) == Sum(draw, h, a + m + |h| - 1, n)
    decreases n
  {
    hide Add, Scale, White;
    if n > 0 {
      DotIsSum(draw, w, h, a, m, n - 1);
      var i := m + |h| - 1 - (n - 1);
      assert w[i] == White(draw, a + i);
      assert a + i == a + m + |h| - 1 - (n - 1);
    }
  }

  /** `_noise`: for a window that is not empty, that window of the infinite sequence. An empty window raises
      on a segment border at full bandwidth, and comes out two samples long when filtered. `h` is empty
      at full bandwidth. */
  method Noise(draw: Draws, h: seq<real>, k0: int, n: nat) returns (r: Result<seq<Complex>>)
    requires h == [] || |h| == 2 * HalfTaps + 1
    ensures n > 0 ==> r == Ok(Window(draw, h, k0, n))
    ensures n == 0 ==> (if h != [] then r.Ok? && |r.value| == 2 else if k0 % SegmentLength == 0 then r.Err? else r == Ok([]))
  {
    hide White, Sum;
    var half := if h == [] then 0 else HalfTaps;
    var a, b := k0 - half, k0 + n + half;
    var w := WhiteRange(draw, a, b);
    if h == [] {
      if n > 0 {
        assert w.value == Window(draw, h, k0, n);
      }
      return w;
    }
    var out := Convolve(w.value, h);
    if n > 0 {
      forall m | 0 <= m < n ensures out[m] == NoiseAt(draw, h, k0 + m) {
        DotIsSum(draw, w.value, h, a, m, |h|);
        assert a + m + |h| - 1 == k0 + m + |h| / 2;
      }
      assert out == Window(draw, h, k0, n);
    }
    return Ok(out);
  }

  /** Tap j alone, of weight g. */
  ghost predicate OnlyTap(h: seq<real>, j: nat, g: real) {
    j < |h| && h[j] == g && forall i :: 0 <= i < |h| && i != j ==> h[i] == 0.0
  }

  /** What one tap contributes: the middle one the sample itself, the ones before it later samples, the ones behind it
      earlier samples. */
  lemma {:induction false} OneTap(draw: Draws, h: seq<real>, j: nat, g: real, k: int)
    requires OnlyTap(h, j, g)
    ensures NoiseAt(draw, h, k) == Complex(g * White(draw, k + |h| / 2 - j).re, g * White(draw, k + |h| / 2 - j).im)
  {
    hide White, Sum, OnlyTap;
    OneTapSum(draw, h, j, g, k + |h| / 2, |h|);
    HasTap(h, j, g);
  }

  lemma HasTap(h: seq<real>, j: nat, g: real)
    requires OnlyTap(h, j, g)
    ensures j < |h|
  {
  }

  lemma {:induction false} OneTapSum(draw: Draws, h: seq<real>, j: nat, g: real, i: int, n: nat)
    requires OnlyTap(h, j, g) && n <= |h|
    ensures Sum(draw, h, i, n) == if n > j then Complex(g * White(draw, i - j).re, g * White(draw, i - j).im) else Complex(0.0, 0.0)
    decreases n
  {
    hide White;
    if n > 0 {
      OneTapSum(draw, h, j, g, i, n - 1);
      NoWeight(White(draw, i - (n - 1)));
    }
  }

  lemma NoWeight(x: Complex)
    ensures Scale(0.0, x) == Complex(0.0, 0.0)
  {
  }

  /** Segments follow each other without gap, also below zero. */
  lemma {:induction false} WhiteIsSegmented(draw: Draws, s: int, j: int)
    requires 0 <= j < 4096
    ensures White(draw, 4096 * s + j) == draw(s, j)
  {
    SegmentOf(s, j);
  }

  // --- windows fit together ------------------------------------------------------------------------

  /** Two windows agree wherever both reach. */
  lemma {:induction false} WindowsAgree(draw: Draws, h: seq<real>, k0: int, n: nat, k1: int, m: nat, k: int)
    requires k0 <= k < k0 + n && k1 <= k < k1 + m
    ensures Window(draw, h, k0, n)[k - k0] == Window(draw, h, k1, m)[k - k1]
  {
    hide Window, NoiseAt;
    assert k0 + (k - k0) == k1 + (k - k1);
  }

  /** Consecutive windows, any number of them, concatenate to the window of the total length. */
  lemma {:induction false} WindowsConcatenate(draw: Draws, h: seq<real>, k0: int, ns: seq<nat>)
    ensures Joined(draw, h, k0, ns) == Window(draw, h, k0, Total(ns))
    decreases |ns|
  {
    hide NoiseAt;
    if ns != [] {
      var init, n := ns[..|ns| - 1], ns[|ns| - 1];
      WindowsConcatenate(draw, h, k0, init);
      var x, y, z := Window(draw, h, k0, Total(init)), Window(draw, h, k0 + Total(init), n), Window(draw, h, k0, Total(ns));
      forall i | 0 <= i < |z| ensures (x + y)[i] == z[i] {
        if i >= |x| {
          assert k0 + Total(init) + (i - |x|) == k0 + i;
        }
      }
    }
  }

  function Total(ns: seq<nat>): nat
    decreases |ns|
  {
    if ns == [] then 0 else Total(ns[..|ns| - 1]) + ns[|ns| - 1]
  }

  /** The windows of the given lengths, one after the other. */
  function Joined(draw: Draws, h: seq<real>, k0: int, ns: seq<nat>): seq<Complex>
    decreases |ns|
  {
    if ns == [] then []
    else
      var init := ns[..|ns| - 1];
      Joined(draw, h, k0, init) + Window(draw, h, k0 + Total(init), ns[|ns| - 1])
  }
}
