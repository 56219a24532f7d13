/** The simulator's RX stream: sample positions, their device times, and the accounting of lost
    samples (`_stream_time`, `_do_rx_read` of active_backend_sim.py, `sample_offset` of active_common.py). */
module RxStreams {
  import opened Reals
  import opened HalfEven
  import opened DevTimes

  // --- positions and times ---------------------------------------------------------------------

  /** Sample index of `t` in a stream starting at `t0` at `fs` samples per second. */
  function SampleOffset(t: DevTime, t0: DevTime, fs: real): int
    requires t.rate > 0 && t0.rate > 0
  {
    RoundProduct(Seconds(t) - Seconds(t0), fs)
  }

  /** Device time of sample `pos` on the tick grid of the stream start. It is computed from the
      start each time, never by adding rounded steps. */
  function StreamTime(t0: DevTime, pos: int, fs: real): (t: DevTime)
    requires Normal(t0) && fs > 0.0
    ensures Normal(t) && t.rate == t0.rate
  {
    FromSeconds(Seconds(t0) + pos as real / fs, t0.rate).value
  }

  /** However many samples went by, the reported time is within half a tick of the exact one. */
  lemma {:induction false} StreamTimeWithinHalfTick(t0: DevTime, pos: int, fs: real)
    requires Normal(t0) && fs > 0.0
    ensures var e := Seconds(StreamTime(t0, pos, fs)) - (Seconds(t0) + pos as real / fs);
            -0.5 / t0.rate as real <= e <= 0.5 / t0.rate as real
  {
    FromSecondsIsNearest(Seconds(t0) + pos as real / fs, t0.rate);
  }

  /** In ticks after the stream start: within half a tick of pos * rate / fs. */
  lemma {:induction false} StreamTicks(t0: DevTime, pos: int, fs: real)
    requires Normal(t0) && fs > 0.0
    ensures var m := Total(StreamTime(t0, pos, fs)) - Total(t0);
            var a := t0.rate as real / fs;
            pos as real * a - 0.5 <= m as real <= pos as real * a + 0.5
  {
    hide Make, Total, Seconds;
    var r := t0.rate as real;
    var x := Seconds(t0) + pos as real / fs;
    SecondsTotal(t0);
    var n := Total(t0) as real + pos as real * (r / fs);
    assert x * r == n by {
      assert pos as real / fs * r == pos as real * (r / fs);
      assert x * r == Seconds(t0) * r + pos as real / fs * r;
    }
    RoundProductIs(x, r, n);
  }

  lemma OffsetFromTicks(t: DevTime, t0: DevTime, fs: real)
    requires Normal(t) && Normal(t0) && t.rate == t0.rate && fs > 0.0
    ensures SampleOffset(t, t0, fs) == Round((Total(t) - Total(t0)) as real / (t0.rate as real / fs))
  {
    hide Total, Seconds, Round;
    var r := t0.rate as real;
    SecondsTotal(t);
    SecondsTotal(t0);
    var m := (Total(t) - Total(t0)) as real;
    assert (Seconds(t) - Seconds(t0)) * r == m;
    Rescale(Seconds(t) - Seconds(t0), r, fs, m);
    RoundProductIs(Seconds(t) - Seconds(t0), fs, m / (r / fs));
  }

  lemma Rescale(d: real, r: real, fs: real, m: real)
    requires r > 0.0 && fs > 0.0 && d * r == m
    ensures d * fs == m / (r / fs)
  {
    var a := r / fs;
    assert a * fs == r;
    assert d * fs * a == d * r;
  }

  /** The position of a sample is recovered from its device time. */
  lemma {:induction false} PositionRecovered(t0: DevTime, pos: int, fs: real)
    requires Normal(t0) && 0.0 < fs <= t0.rate as real
    ensures SampleOffset(StreamTime(t0, pos, fs), t0, fs) == pos
  {
    hide Total, Seconds, Round, StreamTime, SampleOffset;
    var t := StreamTime(t0, pos, fs);
    StreamTicks(t0, pos, fs);
    OffsetFromTicks(t, t0, fs);
    AtLeastOne(t0.rate as real, fs);
    NearestOnFinerGrid(Total(t) - Total(t0), pos, t0.rate as real / fs);
  }

  lemma AtLeastOne(r: real, fs: real)
    requires 0.0 < fs <= r
    ensures r / fs >= 1.0
  {
  }

  ghost predicate EveryPositionRecovered(t0: DevTime, fs: real)
    requires Normal(t0) && fs > 0.0
  {
    forall pos: nat :: SampleOffset(StreamTime(t0, pos, fs), t0, fs) == pos
  }

  /** If every position is recovered, each sample advances the device time by a tick at least. */
  lemma {:induction false} OneTickPerSample(t0: DevTime, fs: real, n: nat)
    requires Normal(t0) && fs > 0.0 && EveryPositionRecovered(t0, fs)
    ensures Total(StreamTime(t0, n, fs)) >= Total(StreamTime(t0, 0, fs)) + n
  {
    if n > 0 {
      OneTickPerSample(t0, fs, n - 1);
      hide Total, Seconds, Round, StreamTime, SampleOffset;
      var t, p := StreamTime(t0, n, fs), StreamTime(t0, n - 1, fs);
      OffsetFromTicks(t, t0, fs);
      OffsetFromTicks(p, t0, fs);
      if Total(t) <= Total(p) {
        var a := t0.rate as real / fs;
        QuotientOrder((Total(t) - Total(t0)) as real, (Total(p) - Total(t0)) as real, a);
        RoundMonotone((Total(t) - Total(t0)) as real / a, (Total(p) - Total(t0)) as real / a);
        assert false;
      }
    }
  }

  lemma QuotientOrder(x: real, y: real, a: real)
    requires x <= y && a > 0.0
    ensures x / a <= y / a
  {
  }

  /** A sample count after which fewer ticks than samples have gone by. */
  lemma EnoughSamples(a: real) returns (n: nat)
    requires a < 1.0
    ensures Product(n as real, a) < n as real - 1.0
  {
    hide Product;
    var b := 1.0 - a;
    var c := Inverse(b);
    n := c.Floor + 1;
    Scales(c, n as real, b);
    Complement(n as real, a);
  }

  ghost function Product(x: real, y: real): real {
    x * y
  }

  lemma Inverse(b: real) returns (c: real)
    requires b > 0.0
    ensures c > 0.0 && Product(c, b) == 1.0
  {
    c := 1.0 / b;
  }

  lemma Scales(x: real, y: real, b: real)
    requires x < y && b > 0.0
    ensures Product(x, b) < Product(y, b)
  {
  }

  lemma Complement(n: real, a: real)
    ensures Product(n, 1.0 - a) == n - Product(n, a)
  {
  }

  lemma QuotientBelowOne(r: real, fs: real)
    requires 0.0 < r < fs
    ensures r / fs < 1.0
  {
    hide Product;
    var a := r / fs;
    assert Product(a, fs) == r by { ProductQuotient(r, fs); }
    if a > 1.0 {
      Scales(1.0, a, fs);
    }
    ProductOne(fs);
  }

  lemma ProductQuotient(r: real, fs: real)
    requires fs > 0.0
    ensures Product(r / fs, fs) == r
  {
  }

  lemma ProductOne(x: real)
    ensures Product(1.0, x) == x
  {
  }

  /** Faster than the tick clock, two samples share a tick sooner or later. */
  lemma {:induction false} FasterThanTicksCollides(t0: DevTime, fs: real)
    requires Normal(t0) && fs > t0.rate as real
    ensures !EveryPositionRecovered(t0, fs)
  {
    hide Total, Seconds, Round, StreamTime, SampleOffset, Product;
    var a := t0.rate as real / fs;
    QuotientBelowOne(t0.rate as real, fs);
    var n := EnoughSamples(a);
    TickBounds(t0, n, fs, a);
    TickBounds(t0, 0, fs, a);
    ProductZero(a);
    if EveryPositionRecovered(t0, fs) {
      OneTickPerSample(t0, fs, n);
      assert false;
    }
  }

  lemma ProductZero(a: real)
    ensures Product(0.0, a) == 0.0
  {
  }

  lemma TickBounds(t0: DevTime, pos: int, fs: real, a: real)
    requires Normal(t0) && fs > 0.0 && a == t0.rate as real / fs
    ensures Product(pos as real, a) - 0.5
         <= (Total(StreamTime(t0, pos, fs)) - Total(t0)) as real
         <= Product(pos as real, a) + 0.5
  {
    StreamTicks(t0, pos, fs);
  }

  /** Time stamps identify samples exactly when the sample rate does not exceed the tick rate. */
  lemma {:induction false} TimesIdentifySamples(t0: DevTime, fs: real)
    requires Normal(t0) && fs > 0.0
    ensures EveryPositionRecovered(t0, fs) <==> fs <= t0.rate as real
  {
    if fs <= t0.rate as real {
      forall pos: nat ensures SampleOffset(StreamTime(t0, pos, fs), t0, fs) == pos {
        PositionRecovered(t0, pos, fs);
      }
    } else {
      FasterThanTicksCollides(t0, fs);
    }
  }

  // --- reads -----------------------------------------------------------------------------------

  /** What one read does to the position: samples skipped because the reader fell behind, samples
      lost to an injected overflow, then the samples delivered from `from`. */
  datatype Read = Read(from: int, delivered: int, dropped: int)

  function SkipBehind(behind: real, buffer: real, fs: real): (skip: nat)
    requires fs > 0.0 && buffer >= 0.0
    ensures behind > buffer ==> behind * fs <= skip as real < behind * fs + 1.0
    ensures behind <= buffer ==> skip == 0
  {
    if behind > buffer then
      assert behind * fs > 0.0;
      Ceil(behind * fs)
    else 0
  }

  function ReadAt(pos: int, n: nat, skip: nat, overflow: bool): Read {
    var lost := skip + if overflow then n else 0;
    Read(pos + lost, n, lost)
  }

  /** The stream record of `rx_start`, and the pending count of the injected overflow fault. */
  class RxStream {
    var t0: DevTime
    var pos: int
    var overflows: int
    const fs: real
    const buffer: real

    ghost predicate Valid()
      reads this
    {
      Normal(t0) && fs > 0.0 && buffer >= 0.0
    }

    constructor (start: DevTime, fs: real, buffer: real, overflows: int)
      requires Normal(start) && fs > 0.0 && buffer >= 0.0
      ensures Valid() && t0 == start && pos == 0 && this.fs == fs && this.buffer == buffer
      ensures this.overflows == overflows
    {
      t0, pos, this.overflows := start, 0, overflows;
      this.fs, this.buffer := fs, buffer;
    }

    /** One `rx_read` of n samples by a reader `behind` seconds late. The start time returned is the
        stream time of the first sample delivered. */
    method ReadSamples(n: nat, behind: real) returns (start: DevTime, dropped: nat, overflow: bool)
      requires Valid()
      modifies this
      ensures Valid() && t0 == old(t0)
      ensures var r := ReadAt(old(pos), n, SkipBehind(behind, buffer, fs), old(overflows) > 0);
              && pos == r.from + r.delivered
              && dropped == r.dropped
              && start == StreamTime(t0, r.from, fs)
      ensures overflow <==> behind > buffer || old(overflows) > 0
      ensures dropped == SkipBehind(behind, buffer, fs) + (if old(overflows) > 0 then n else 0) && pos == old(pos) + dropped + n
      ensures overflows == if old(overflows) > 0 then old(overflows) - 1 else old(overflows)
    {
      start := StreamTime(t0, pos, fs);
      overflow, dropped := false, 0;
      if behind > buffer {
        var skip := SkipBehind(behind, buffer, fs);
        pos, dropped, overflow := pos + skip, dropped + skip, true;
        start := StreamTime(t0, pos, fs);
      }
      if overflows > 0 {
        overflows := overflows - 1;
        pos, dropped, overflow := pos + n, dropped + n, true;
        start := StreamTime(t0, pos, fs);
      }
      pos := pos + n;
    }
  }

  /** A request: samples wanted, samples the late reader skips, and whether an overflow is injected. */
  datatype Request = Request(n: nat, skip: nat, overflow: bool)

  function Reads(pos: int, requests: seq<Request>): seq<Read>
    decreases |requests|
  {
    if requests == [] then []
    else
      var r := ReadAt(pos, requests[0].n, requests[0].skip, requests[0].overflow);
      [r] + Reads(r.from + r.delivered, requests[1..])
  }

  function Delivered(rs: seq<Read>): int {
    if rs == [] then 0 else rs[0].delivered + Delivered(rs[1..])
  }

  function Dropped(rs: seq<Read>): int {
    if rs == [] then 0 else rs[0].dropped + Dropped(rs[1..])
  }

  function PositionAfter(pos: int, requests: seq<Request>): int
    decreases |requests|
  {
    if requests == [] then pos
    else
      var r := ReadAt(pos, requests[0].n, requests[0].skip, requests[0].overflow);
      PositionAfter(r.from + r.delivered, requests[1..])
  }

  /** Over any reads the position is the samples delivered plus the samples reported dropped. */
  lemma {:induction false} NothingLostSilently(pos: int, requests: seq<Request>)
    ensures PositionAfter(pos, requests) ==
            pos + Delivered(Reads(pos, requests)) + Dropped(Reads(pos, requests))
    decreases |requests|
  {
    if requests != [] {
      var r := ReadAt(pos, requests[0].n, requests[0].skip, requests[0].overflow);
      NothingLostSilently(r.from + r.delivered, requests[1..]);
      assert Reads(pos, requests)[1..] == Reads(r.from + r.delivered, requests[1..]);
    }
  }

  /** Reads deliver disjoint, increasing stretches of the stream, and the gap before each is
      exactly what that read reports as dropped. */
  lemma {:induction false} GapsAreReported(pos: int, requests: seq<Request>, i: nat)
    requires i < |requests|
    ensures |Reads(pos, requests)| == |requests|
    ensures var rs := Reads(pos, requests);
            var before := if i == 0 then pos else rs[i - 1].from + rs[i - 1].delivered;
            && rs[i].from == before + rs[i].dropped && rs[i].delivered == requests[i].n
            && rs[i].dropped == requests[i].skip + if requests[i].overflow then requests[i].n else 0
    decreases |requests|
  {
    var r := ReadAt(pos, requests[0].n, requests[0].skip, requests[0].overflow);
    var pos' := r.from + r.delivered;
    if i > 0 {
      GapsAreReported(pos', requests[1..], i - 1);
      assert Reads(pos, requests)[1..] == Reads(pos', requests[1..]);
    } else if |requests| > 1 {
      GapsAreReported(pos', requests[1..], 0);
    }
  }
}
