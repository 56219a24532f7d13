/** Exact device time on integer tick grids (`DevTime` of active_common.py). */
module DevTimes {
  import opened Results
  import opened HalfEven

  /** `secs + ticks / rate` seconds; values built by `Make` have 0 <= ticks < rate. */
  datatype DevTime = DevTime(secs: int, ticks: int, rate: int)

  predicate Normal(t: DevTime) {
    0 <= t.ticks < t.rate
  }

  /** The instant, counted in ticks of its own grid. */
  function Total(t: DevTime): int {
    t.secs * t.rate + t.ticks
  }

  /** The instant in exact seconds. */
  function Seconds(t: DevTime): real
    requires t.rate > 0
  {
    t.secs as real + t.ticks as real / t.rate as real
  }

  /** Construction: carries whole seconds out of `ticks` (also for negative ticks). */
  function Make(secs: int, ticks: int, rate: int): (r: Result<DevTime>)
    ensures r.Err? <==> rate <= 0
    ensures r.Ok? ==> Normal(r.value) && r.value.rate == rate && Total(r.value) == secs * rate + ticks
  {
    if rate <= 0 then Err(ValueError)
    else
      SplitTotal(secs, ticks, rate);
      Ok(DevTime(secs + ticks / rate, ticks % rate, rate))
  }

  lemma SplitTotal(secs: int, ticks: int, rate: int)
    requires rate > 0
    ensures (secs + ticks / rate) * rate + ticks % rate == secs * rate + ticks
  {
    assert ticks / rate * rate + ticks % rate == ticks;
    assert (secs + ticks / rate) * rate == secs * rate + ticks / rate * rate;
  }

  lemma SecondsTotal(t: DevTime)
    requires t.rate > 0
    ensures Seconds(t) * t.rate as real == Total(t) as real
    ensures Seconds(t) == Total(t) as real / t.rate as real
  {
    var r := t.rate as real;
    assert t.ticks as real / r * r == t.ticks as real;
    assert Seconds(t) * r == t.secs as real * r + t.ticks as real;
    assert (t.secs * t.rate) as real == t.secs as real * r;
  }

  lemma {:induction false} TotalDeterminesNormal(t: DevTime, u: DevTime)
    requires Normal(t) && Normal(u) && t.rate == u.rate && Total(t) == Total(u)
    ensures t == u
  {
    DigitsUnique(t.secs, t.ticks, u.secs, u.ticks, t.rate);
  }

  lemma DigitsUnique(q: int, d: int, q': int, d': int, b: int)
    requires 0 <= d < b && 0 <= d' < b && q * b + d == q' * b + d'
    ensures q == q' && d == d'
  {
    assert (q - q') * b == d' - d;
    BelowOne(q - q', d' - d, b);
  }

  lemma BelowOne(k: int, e: int, b: int)
    requires -b < e < b && k * b == e
    ensures k == 0
  {
  }

  // --- comparisons: exact across tick rates ---------------------------------------------------

  predicate Less(t: DevTime, u: DevTime)
    requires t.rate > 0 && u.rate > 0
  {
    Seconds(t) < Seconds(u)
  }

  predicate Same(t: DevTime, u: DevTime)
    requires t.rate > 0 && u.rate > 0
  {
    Seconds(t) == Seconds(u)
  }

  lemma ScaledOrder(x: real, y: real, p: real, q: real)
    requires p > 0.0 && q > 0.0
    ensures x < y <==> x * p * q < y * p * q
    ensures x == y <==> x * p * q == y * p * q
  {
    var pq := p * q;
    assert pq > 0.0;
    assert x * p * q == x * pq && y * p * q == y * pq;
  }

  /** Comparing two instants on different grids is comparing their cross-multiplied tick counts:
      no tick rate is ever rounded. */
  lemma {:induction false} CompareIsCrossMultiplied(t: DevTime, u: DevTime)
    requires t.rate > 0 && u.rate > 0
    ensures Less(t, u) <==> Total(t) * u.rate < Total(u) * t.rate
    ensures Same(t, u) <==> Total(t) * u.rate == Total(u) * t.rate
  {
    var p, q := t.rate as real, u.rate as real;
    SecondsTotal(t);
    SecondsTotal(u);
    ScaledOrder(Seconds(t), Seconds(u), p, q);
    assert Seconds(t) * p * q == Total(t) as real * q == (Total(t) * u.rate) as real;
    assert Seconds(u) * p * q == Seconds(u) * q * p == Total(u) as real * p == (Total(u) * t.rate) as real;
  }

  /** On one grid the order of instants is the lexicographic order of (secs, ticks), and equal
      instants are identical values (so equal times hash equally). */
  lemma {:induction false} OrderOnOneGrid(t: DevTime, u: DevTime)
    requires Normal(t) && Normal(u) && t.rate == u.rate
    ensures Less(t, u) <==> t.secs < u.secs || (t.secs == u.secs && t.ticks < u.ticks)
    ensures Same(t, u) <==> t == u
  {
    var r := t.rate;
    assert Less(t, u) <==> Total(t) < Total(u) by {
      CompareIsCrossMultiplied(t, u);
      ScaleInt(Total(t), Total(u), r);
    }
    assert Same(t, u) <==> Total(t) == Total(u) by {
      CompareIsCrossMultiplied(t, u);
      ScaleInt(Total(t), Total(u), r);
    }
    hide Less, Same;
    Lexicographic(t.secs, t.ticks, u.secs, u.ticks, r);
    if Total(t) == Total(u) { TotalDeterminesNormal(t, u); }
  }

  lemma Lexicographic(a: int, x: int, b: int, y: int, r: int)
    requires 0 <= x < r && 0 <= y < r
    ensures a * r + x < b * r + y <==> a < b || (a == b && x < y)
  {
    var d := b - a;
    assert b * r - a * r == d * r;
    assert d >= 1 ==> d * r >= r;
    assert d <= -1 ==> d * r <= -r;
  }

  lemma ScaleInt(a: int, b: int, r: int)
    requires r > 0
    ensures a < b <==> a * r < b * r
    ensures a == b <==> a * r == b * r
  {
  }

  // --- tick arithmetic -------------------------------------------------------------------------

  function AddTicks(t: DevTime, n: int): (r: DevTime)
    requires Normal(t)
    ensures Normal(r) && r.rate == t.rate && Total(r) == Total(t) + n
  {
    Make(t.secs, t.ticks + n, t.rate).value
  }

  /** `t - u` in ticks; an error when the grids differ. */
  function DiffTicks(t: DevTime, u: DevTime): (r: Result<int>)
    ensures r.Err? <==> t.rate != u.rate
    ensures r.Ok? ==> r.value == Total(t) - Total(u)
  {
    if t.rate != u.rate then Err(ValueError)
    else
      assert (t.secs - u.secs) * t.rate == t.secs * t.rate - u.secs * t.rate;
      Ok((t.secs - u.secs) * t.rate + (t.ticks - u.ticks))
  }

  /** Adding ticks is a free and transitive action of the integers on each grid, and `DiffTicks`
      is the group element that carries one instant to another. */
  lemma {:induction false} TicksActOnGrid(t: DevTime, u: DevTime, m: int, n: int)
    requires Normal(t) && Normal(u) && t.rate == u.rate
    ensures AddTicks(AddTicks(t, m), n) == AddTicks(t, m + n)
    ensures AddTicks(t, 0) == t
    ensures DiffTicks(AddTicks(t, n), t) == Ok(n)
    ensures AddTicks(u, DiffTicks(t, u).value) == t
    ensures AddTicks(t, m) == AddTicks(t, n) ==> m == n
  {
    TotalDeterminesNormal(AddTicks(AddTicks(t, m), n), AddTicks(t, m + n));
    TotalDeterminesNormal(AddTicks(t, 0), t);
    TotalDeterminesNormal(AddTicks(u, DiffTicks(t, u).value), t);
  }

  // --- conversion between grids ----------------------------------------------------------------

  /** The nearest tick of the grid `rate` to `x` seconds (ties to even). */
  function FromSeconds(x: real, rate: int): (r: Result<DevTime>)
    ensures r.Err? <==> rate <= 0
    ensures r.Ok? ==> Normal(r.value) && r.value.rate == rate && Total(r.value) == RoundProduct(x, rate as real)
  {
    if rate <= 0 then Err(ValueError) else Make(0, RoundProduct(x, rate as real), rate)
  }

  function WithTickRate(t: DevTime, rate: int): (r: Result<DevTime>)
    requires Normal(t)
    ensures r.Err? <==> rate <= 0
    ensures r.Ok? ==> Normal(r.value) && r.value.rate == rate && Total(r.value) == RoundProduct(Seconds(t), rate as real)
  {
    FromSeconds(Seconds(t), rate)
  }

  /** Converting to another grid moves an instant by at most half a tick of that grid. */
  lemma {:induction false} FromSecondsIsNearest(x: real, rate: int)
    requires rate > 0
    ensures var y := Seconds(FromSeconds(x, rate).value);
            -0.5 / rate as real <= y - x <= 0.5 / rate as real
  {
    var t, r := FromSeconds(x, rate).value, rate as real;
    SecondsTotal(t);
    var e := Total(t) as real - x * r;
    assert Seconds(t) - x == e / r;
    DivideBound(e, 0.5, r);
  }

  /** Converting to another grid never reverses two instants, whatever grids they come from. */
  lemma {:induction false} WithTickRateMonotone(t: DevTime, u: DevTime, rate: int)
    requires Normal(t) && Normal(u) && rate > 0 && !Less(u, t)
    ensures !Less(WithTickRate(u, rate).value, WithTickRate(t, rate).value)
  {
    hide Make, Total, Round, Seconds;
    var t', u' := WithTickRate(t, rate).value, WithTickRate(u, rate).value;
    ScaleReal(Seconds(t), Seconds(u), rate as real);
    RoundMonotone(Seconds(t) * rate as real, Seconds(u) * rate as real);
    TickOrder(u', t');
  }

  lemma ScaleReal(x: real, y: real, r: real)
    requires x <= y && r > 0.0
    ensures x * r <= y * r && x / r <= y / r
  {
  }

  lemma TickOrder(t: DevTime, u: DevTime)
    requires t.rate == u.rate > 0
    ensures Less(t, u) <==> Total(t) < Total(u)
  {
    CompareIsCrossMultiplied(t, u);
    ScaleInt(Total(t), Total(u), t.rate);
  }

  /** Converting counts: n source ticks become n * rate / t.rate target ticks, rounded once. */
  lemma {:induction false} ConvertedTotal(t: DevTime, rate: int)
    requires Normal(t) && rate > 0
    ensures Total(WithTickRate(t, rate).value) == Round(Total(t) as real / (t.rate as real / rate as real))
  {
    hide Make, Total, Round, Seconds;
    var p, q := t.rate as real, rate as real;
    SecondsTotal(t);
    DivideTwice(Total(t) as real, p, q);
    RoundProductIs(Seconds(t), rate as real, Total(t) as real / (p / q));
  }

  lemma DivideTwice(x: real, p: real, q: real)
    requires p > 0.0 && q > 0.0
    ensures x / p * q == x / (p / q)
  {
    var a := p / q;
    assert a * q == p;
    assert x / p * q * a == x / p * p == x;
  }

  /** Going to a grid at least as fine and back is the identity. */
  lemma {:induction false} FinerGridRoundTrip(t: DevTime, rate: int)
    requires Normal(t) && rate >= t.rate
    ensures WithTickRate(WithTickRate(t, rate).value, t.rate).value == t
  {
    hide Make, Total, Round, Seconds, WithTickRate;
    var p, q := t.rate as real, rate as real;
    ScaleReal(p, q, p);
    var v := WithTickRate(t, rate).value;
    ConvertedTotal(t, rate);
    ConvertedTotal(v, t.rate);
    Reciprocal(Total(t) as real, p, q);
    NearestOnFinerGrid(Total(v), Total(t), q / p);
    TotalDeterminesNormal(WithTickRate(v, t.rate).value, t);
  }

  lemma Reciprocal(x: real, p: real, q: real)
    requires p > 0.0 && q > 0.0
    ensures x / (p / q) == x * (q / p)
  {
    DivideTwice(x, p, q);
  }

  /** On a coarser grid some tick is lost: with fewer than one target tick per source tick the
      conversion cannot be injective. */
  lemma {:induction false} CoarserGridLosesATick(rate: int, coarse: int)
    requires 0 < coarse < rate
    ensures exists t :: Normal(t) && t.rate == rate && WithTickRate(WithTickRate(t, coarse).value, rate).value != t
  {
    if forall t :: Normal(t) && t.rate == rate ==> WithTickRate(WithTickRate(t, coarse).value, rate).value == t {
      TickCountsGrow(rate, coarse, rate);
      WholeSecondTicks(rate, coarse);
      assert false;
    }
  }

  lemma WholeSecondTicks(rate: int, coarse: int)
    requires rate > 0 && coarse > 0
    ensures Total(WithTickRate(AddTicks(DevTime(0, 0, rate), rate), coarse).value) == coarse
  {
    hide Make, Round, Seconds, WithTickRate, AddTicks;
    var t := AddTicks(DevTime(0, 0, rate), rate);
    ConvertedTotal(t, coarse);
    Reciprocal(rate as real, rate as real, coarse as real);
    assert rate as real * (coarse as real / rate as real) == coarse as real;
    RoundUnique(coarse as real, coarse);
  }

  ghost predicate LosesNothing(rate: int, coarse: int)
    requires 0 < coarse && 0 < rate
  {
    forall t :: Normal(t) && t.rate == rate ==> WithTickRate(WithTickRate(t, coarse).value, rate).value == t
  }

  /** If no tick is lost, the first n ticks land on n different ticks of the other grid. */
  lemma {:induction false} TickCountsGrow(rate: int, coarse: int, n: nat)
    requires 0 < coarse && 0 < rate && LosesNothing(rate, coarse)
    ensures Total(WithTickRate(AddTicks(DevTime(0, 0, rate), n), coarse).value) >= n
  {
    var t := AddTicks(DevTime(0, 0, rate), n);
    if n > 0 {
      TickCountsGrow(rate, coarse, n - 1);
      var p := AddTicks(DevTime(0, 0, rate), n - 1);
      var t', p' := WithTickRate(t, coarse).value, WithTickRate(p, coarse).value;
      TickOrder(t, p);
      WithTickRateMonotone(p, t, coarse);
      TickOrder(t', p');
      if Total(t') == Total(p') {
        TotalDeterminesNormal(t', p');
        assert false;
      }
    } else {
      ConvertedTotal(t, coarse);
      Reciprocal(0.0, rate as real, coarse as real);
      RoundUnique(0.0, 0);
    }
  }

  /** A grid change is undone by the change back, for every instant of the first grid, exactly
      when the other grid is at least as fine. */
  lemma {:induction false} RoundTripExactly(rate: int, other: int)
    requires rate > 0 && other > 0
    ensures LosesNothing(rate, other) <==> other >= rate
  {
    if other >= rate {
      forall t | Normal(t) && t.rate == rate
        ensures WithTickRate(WithTickRate(t, other).value, rate).value == t
      {
        FinerGridRoundTrip(t, other);
      }
    } else {
      CoarserGridLosesATick(rate, other);
    }
  }
}
