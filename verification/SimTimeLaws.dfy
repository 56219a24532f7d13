/** What the time operations of the simulator do to each device: its readings, its latch, its reference. */
module SimTimeLaws {
  import opened Results
  import opened DeviceClocks
  import opened Pps
  import opened SimClocks
  import opened SimTimes

  // --- references and latencies ------------------------------------------------------------------

  /** The rate a device runs at: its own oscillator while unlocked or internal, its GPSDO, or none to speak of on
      an external or chassis reference. */
  lemma {:induction false} RateOfReference(rig: Rig, s: Clocks, d: Device)
    requires RigOk(rig) && s.source.Keys == rig.devices && d in rig.devices
    ensures d in s.unlocked || s.source[d] == Internal ==> CurrentRate(rig, s, d) == rig.internalRate[d]
    ensures d !in s.unlocked && s.source[d] == Gpsdo ==> CurrentRate(rig, s, d) == rig.gpsRate[d]
    ensures d !in s.unlocked && (s.source[d] == External || s.source[d] == Mboard) ==> CurrentRate(rig, s, d) == 0.0
  {
  }

  /** The master latches on the edge, every other device the skew in its own ticks later. */
  lemma {:induction false} LatencyIs(rig: Rig, s: Clocks, d: Device)
    requires d in s.tick && s.tick[d] > 0
    ensures d == rig.master ==> Latency(rig, s, d) == 0.0
    ensures d != rig.master ==> Latency(rig, s, d) * s.tick[d] as real == rig.skewTicks as real
  {
  }

  // --- immediate loads ---------------------------------------------------------------------------

  /** As the device list of a call gives them: each device once. */
  ghost predicate OnceEach(loads: seq<(Device, real)>) {
    forall i, j :: 0 <= i < j < |loads| ==> loads[i].0 != loads[j].0
  }

  /** What is the same about a device in two states. */
  ghost predicate SameDevice(rig: Rig, s: Clocks, r: Clocks, d: Device)
    requires Valid(rig, s) && Valid(rig, r) && d in rig.devices
  {
    && r.clk[d] == s.clk[d] && LatchOf(r.pending, d) == LatchOf(s.pending, d) && (d in r.loaded <==> d in s.loaded)
    && r.source[d] == s.source[d] && r.tick[d] == s.tick[d] && (d in r.unlocked <==> d in s.unlocked)
  }

  /** One load: the device itself, and what it leaves alone. */
  lemma {:induction false} OneNow(rig: Rig, s: Clocks, d: Device, latency: real, value: real)
    requires Valid(rig, s) && d in rig.devices
    ensures var r := TimeNowOne(rig, s, d, latency, value);
            && Valid(rig, r) && r.now == s.now && r.source == s.source && r.unlocked == s.unlocked && r.tick == s.tick && r.gaps == s.gaps
            && d in r.clk && d in s.clk && r.clk[d] == Load(s.clk[d], s.now + latency, value, CurrentRate(rig, s, d))
            && d in r.loaded && LatchOf(r.pending, d).None?
  {
    TimeNowOneValid(rig, s, d, latency, value);
    LatchOfWithout(s.pending, d, d);
    hide Load, CurrentRate, LatchOf, Without, LatchesOk, GapsUntil, AllRunning;
    RunningKeys(rig.devices, s.clk, s.now);
  }

  lemma {:induction false} OneNowOther(rig: Rig, s: Clocks, d: Device, latency: real, value: real, e: Device)
    requires Valid(rig, s) && d in rig.devices && e in rig.devices && e != d
    ensures Valid(rig, TimeNowOne(rig, s, d, latency, value)) && SameDevice(rig, s, TimeNowOne(rig, s, d, latency, value), e)
  {
    TimeNowOneValid(rig, s, d, latency, value);
    LatchOfWithout(s.pending, d, e);
    hide Load, CurrentRate, LatchOf, Without, LatchesOk, GapsUntil, AllRunning;
    RunningKeys(rig.devices, s.clk, s.now);
  }

  lemma SameDeviceTransitive(rig: Rig, a: Clocks, b: Clocks, c: Clocks, d: Device)
    requires Valid(rig, a) && Valid(rig, b) && Valid(rig, c) && d in rig.devices && SameDevice(rig, a, b, d) && SameDevice(rig, b, c, d)
    ensures SameDevice(rig, a, c, d)
  {
    hide LatchOf, LatchesOk, GapsUntil, Wellformed;
  }

  lemma SameDeviceSelf(rig: Rig, s: Clocks, d: Device)
    requires Valid(rig, s) && d in rig.devices
    ensures SameDevice(rig, s, s, d)
  {
    hide LatchOf, LatchesOk, GapsUntil, Wellformed;
  }

  lemma NowStart(rig: Rig, s: Clocks, loads: seq<(Device, real)>, value: real)
    requires Valid(rig, s) && (forall j :: 0 <= j < |loads| ==> loads[j].0 in rig.devices)
    ensures loads == [] ==> TimeNow(rig, s, loads, value) == s
    ensures loads != [] ==>
              && loads[0].0 in rig.devices && (forall j :: 0 <= j < |loads[1..]| ==> loads[1..][j].0 in rig.devices) && Valid(rig, TimeNowOne(rig, s, loads[0].0, loads[0].1, value))
              && TimeNow(rig, s, loads, value) == TimeNow(rig, TimeNowOne(rig, s, loads[0].0, loads[0].1, value), loads[1..], value)
  {
    if loads != [] {
      TimeNowOneValid(rig, s, loads[0].0, loads[0].1, value);
    }
    hide Valid, TimeNowOne;
  }

  /** `set_time_now` leaves every device it does not name alone. */
  lemma {:induction false} TimeNowOthers(rig: Rig, s: Clocks, loads: seq<(Device, real)>, value: real, d: Device)
    requires Valid(rig, s) && (forall j :: 0 <= j < |loads| ==> loads[j].0 in rig.devices) && d in rig.devices && forall i :: 0 <= i < |loads| ==> loads[i].0 != d
    ensures Valid(rig, TimeNow(rig, s, loads, value)) && SameDevice(rig, s, TimeNow(rig, s, loads, value), d)
    decreases |loads|
  {
    hide *;
    NowStart(rig, s, loads, value);
    if loads == [] {
      SameDeviceSelf(rig, s, d);
    } else {
      var s' := TimeNowOne(rig, s, loads[0].0, loads[0].1, value);
      OneNowOther(rig, s, loads[0].0, loads[0].1, value, d);
      TimeNowOthers(rig, s', loads[1..], value, d);
      SameDeviceTransitive(rig, s, s', TimeNow(rig, s, loads, value), d);
    }
  }

  /** What a load leaves of a device. */
  ghost predicate LoadedAt(rig: Rig, s: Clocks, r: Clocks, d: Device, latency: real, value: real)
    requires Valid(rig, s) && d in rig.devices
  {
    && Valid(rig, r) && r.now == s.now && d in r.clk && d in s.clk
    && r.clk[d] == Load(s.clk[d], s.now + latency, value, CurrentRate(rig, s, d))
    && d in r.loaded && LatchOf(r.pending, d).None?
  }

  lemma {:induction false} TimeNowLoaded(rig: Rig, s: Clocks, loads: seq<(Device, real)>, value: real, i: nat)
    requires Valid(rig, s) && (forall j :: 0 <= j < |loads| ==> loads[j].0 in rig.devices) && OnceEach(loads) && i < |loads|
    ensures loads[i].0 in rig.devices && LoadedAt(rig, s, TimeNow(rig, s, loads, value), loads[i].0, loads[i].1, value)
    decreases |loads|
  {
    hide *;
    NowStart(rig, s, loads, value);
    var d := loads[i].0;
    var s', r := TimeNowOne(rig, s, loads[0].0, loads[0].1, value), TimeNow(rig, s, loads, value);
    OneNow(rig, s, loads[0].0, loads[0].1, value);
    TimeNowValid(rig, s', loads[1..], value);
    if i == 0 {
      RestIsOther(loads);
      TimeNowOthers(rig, s', loads[1..], value, d);
      LoadedStays(rig, s, s', r, d, loads[0].1, value);
    } else {
      RestIs(rig, loads, i);
      OneNowOther(rig, s, loads[0].0, loads[0].1, value, d);
      TimeNowLoaded(rig, s', loads[1..], value, i - 1);
      LoadedLater(rig, s, s', r, d, loads[i].1, value);
    }
  }

  lemma LoadedStays(rig: Rig, s: Clocks, s': Clocks, r: Clocks, d: Device, latency: real, value: real)
    requires Valid(rig, s) && Valid(rig, s') && Valid(rig, r) && d in rig.devices && r.now == s'.now == s.now
    requires d in s.clk && d in s'.clk && s'.clk[d] == Load(s.clk[d], s.now + latency, value, CurrentRate(rig, s, d))
    requires d in s'.loaded && LatchOf(s'.pending, d).None? && SameDevice(rig, s', r, d)
    ensures LoadedAt(rig, s, r, d, latency, value)
  {
    hide Load, LatchOf, CurrentRate, LatchesOk, GapsUntil, Wellformed;
  }

  lemma LoadedLater(rig: Rig, s: Clocks, s': Clocks, r: Clocks, d: Device, latency: real, value: real)
    requires Valid(rig, s) && Valid(rig, s') && d in rig.devices && s'.now == s.now && s'.source == s.source && s'.unlocked == s.unlocked
    requires SameDevice(rig, s, s', d) && LoadedAt(rig, s', r, d, latency, value)
    ensures LoadedAt(rig, s, r, d, latency, value)
  {
    hide Load, LatchOf, LatchesOk, GapsUntil, Wellformed;
  }

  lemma RestIs(rig: Rig, loads: seq<(Device, real)>, i: nat)
    requires (forall j :: 0 <= j < |loads| ==> loads[j].0 in rig.devices) && OnceEach(loads) && 0 < i < |loads|
    ensures (forall j :: 0 <= j < |loads[1..]| ==> loads[1..][j].0 in rig.devices) && OnceEach(loads[1..]) && loads[1..][i - 1] == loads[i] && loads[i].0 != loads[0].0
  {
  }

  lemma RestIsOther(loads: seq<(Device, real)>)
    requires OnceEach(loads) && loads != []
    ensures forall i :: 0 <= i < |loads[1..]| ==> loads[1..][i].0 != loads[0].0
  {
  }

  /** `set_time_now`: a device named reads the value, its own latency from now, and runs on at the rate of its
      reference; its readings until then stand, it counts as loaded and waits for no latch. */
  lemma {:induction false} TimeNowReads(rig: Rig, s: Clocks, loads: seq<(Device, real)>, value: real, i: nat, T: real)
    requires Valid(rig, s) && (forall j :: 0 <= j < |loads| ==> loads[j].0 in rig.devices) && OnceEach(loads) && i < |loads|
    ensures var d, at, r := loads[i].0, s.now + loads[i].1, TimeNow(rig, s, loads, value);
            && Valid(rig, r) && d in r.loaded && LatchOf(r.pending, d).None?
            && d in rig.devices && d in r.clk && |r.clk[d]| > 0 && d in s.clk && |s.clk[d]| > 0
            && RigOk(rig) && s.source.Keys == rig.devices
            && (T >= at ==> Reading(r.clk[d], T) == value + (T - at) * (1.0 + CurrentRate(rig, s, d)))
            && (T < at && loads[i].1 >= 0.0 ==> Reading(r.clk[d], T) == Reading(s.clk[d], T))
  {
    hide *;
    TimeNowLoaded(rig, s, loads, value, i);
    LoadedReads(rig, s, TimeNow(rig, s, loads, value), loads[i].0, loads[i].1, value, T);
  }

  lemma LoadedReads(rig: Rig, s: Clocks, r: Clocks, d: Device, latency: real, value: real, T: real)
    requires Valid(rig, s) && d in rig.devices && LoadedAt(rig, s, r, d, latency, value)
    ensures Valid(rig, r) && d in r.loaded && LatchOf(r.pending, d).None?
    ensures d in r.clk && |r.clk[d]| > 0 && d in s.clk && |s.clk[d]| > 0 && RigOk(rig) && s.source.Keys == rig.devices
    ensures T >= s.now + latency ==> Reading(r.clk[d], T) == value + (T - (s.now + latency)) * (1.0 + CurrentRate(rig, s, d))
    ensures T < s.now + latency && latency >= 0.0 ==> Reading(r.clk[d], T) == Reading(s.clk[d], T)
  {
    hide Load, Reading, LatchOf, LatchesOk, GapsUntil, CurrentRate, Sorted;
    LoadReadings(s.clk[d], s.now + latency, value, CurrentRate(rig, s, d), T);
  }

  // --- latched loads -----------------------------------------------------------------------------

  /** `set_time_next_pps`: while PPS comes, the device loads at the next whole second, its latency later, and waits for
      nothing then; while PPS is missing it goes on waiting. */
  lemma {:induction false} NextPpsLoads(rig: Rig, s: Clocks, devs: seq<Device>, value: real, d: Device, to: real)
    requires Valid(rig, s) && d in devs && forall i :: 0 <= i < |devs| ==> devs[i] in rig.devices
    requires to >= s.now.Floor as real + 1.0
    ensures Valid(rig, NextPps(rig, s, devs, value)) && d in s.clk && d in s.tick && s.tick[d] > 0 && RigOk(rig) && s.source.Keys == rig.devices
    ensures var r := AdvanceTo(rig, NextPps(rig, s, devs, value), to);
            && d in r.clk
            && (!Missing(s.gaps) ==> && r.clk[d] == Load(s.clk[d], s.now.Floor as real + 1.0 + Latency(rig, s, d), value, CurrentRate(rig, s, d))
                                     && d in r.loaded && LatchOf(r.pending, d).None?)
            && (Missing(s.gaps) ==> r.clk[d] == s.clk[d] && LatchOf(r.pending, d).Some? && (d in r.loaded <==> d in s.loaded))
  {
    hide *;
    ClockOf(rig, s, d);
    ReferenceKeys(rig, s);
    NextPpsIs(rig, s, devs, value);
    QueuePointwise(rig, s, devs, s.now, value, d);
    var q, e := Queue(rig, s, devs, s.now, value), s.now.Floor + 1;
    EdgesToCome(s.gaps, s.now, s.now, to);
    assert e as real == s.now.Floor as real + 1.0;
    WaitingLoads(rig, q, d, Latch(d, s.now, value, Latency(rig, s, d)), to);
    SameRates(rig, s, q, d);
    GapsOf(rig, s);
  }

  lemma GapsOf(rig: Rig, s: Clocks)
    requires Valid(rig, s)
    ensures GapsUntil(s.gaps, s.now)
  {
    hide GapsUntil;
  }

  lemma ReferenceKeys(rig: Rig, s: Clocks)
    requires Valid(rig, s)
    ensures RigOk(rig) && s.source.Keys == rig.devices && GapsUntil(s.gaps, s.now)
  {
    hide GapsUntil, RigOk, AllRunning, LatchesOk;
  }

  lemma NextPpsIs(rig: Rig, s: Clocks, devs: seq<Device>, value: real)
    requires Valid(rig, s) && forall i :: 0 <= i < |devs| ==> devs[i] in rig.devices
    ensures NextPps(rig, s, devs, value) == Queue(rig, s, devs, s.now, value)
  {
  }

  /** A device that waits for a latch, advanced. */
  lemma {:induction false} WaitingLoads(rig: Rig, q: Clocks, d: Device, p: Latch, to: real)
    requires Valid(rig, q) && d in rig.devices && to > q.now && LatchOf(q.pending, d) == Some(p)
    ensures d in q.clk && RigOk(rig) && q.source.Keys == rig.devices
    ensures var r, e := AdvanceTo(rig, q, to), FirstEdge(q.gaps, p.req, to);
            && d in r.clk
            && (e.Some? ==> r.clk[d] == Load(q.clk[d], e.value as real + p.latency, p.value, CurrentRate(rig, q, d))
                            && d in r.loaded && LatchOf(r.pending, d).None?)
            && (e.None? ==> r.clk[d] == q.clk[d] && LatchOf(r.pending, d) == Some(p) && (d in r.loaded <==> d in q.loaded))
  {
    hide *;
    ClockOf(rig, q, d);
    ReferenceKeys(rig, q);
    AdvancePointwise(rig, q, to, d);
    EdgeForIs(q.gaps, p, to);
    LatchIsFor(q.pending, d);
    if FirstEdge(q.gaps, p.req, to).Some? {
      LatchedIs(rig, q, q.clk[d], p, FirstEdge(q.gaps, p.req, to).value);
    }
  }

  lemma EdgeForIs(gaps: seq<Gap>, p: Latch, to: real)
    ensures EdgeFor(gaps, Some(p), to) == FirstEdge(gaps, p.req, to)
  {
    hide FirstEdge;
  }

  lemma LatchIsFor(pending: seq<Latch>, d: Device)
    ensures LatchOf(pending, d).Some? ==> LatchOf(pending, d).value.dev == d
  {
    hide LatchOf;
  }

  lemma LatchedIs(rig: Rig, s: Clocks, c: seq<Anchor>, p: Latch, edge: int)
    requires RigOk(rig) && s.source.Keys == rig.devices && p.dev in rig.devices
    ensures Latched(rig, s, c, p, edge) == Load(c, edge as real + p.latency, p.value, CurrentRate(rig, s, p.dev))
  {
    hide Load, CurrentRate;
  }

  lemma SameRates(rig: Rig, s: Clocks, r: Clocks, d: Device)
    requires Valid(rig, s) && Valid(rig, r) && d in rig.devices && r.source == s.source && r.unlocked == s.unlocked
    ensures CurrentRate(rig, r, d) == CurrentRate(rig, s, d)
  {
  }

  // --- references --------------------------------------------------------------------------------

  /** The clock of a device that goes on at another rate from now. */
  ghost predicate Rerated(rig: Rig, s: Clocks, r: Clocks, d: Device)
    requires Valid(rig, s) && Valid(rig, r) && d in rig.devices
  {
    r.clk[d] == Reanchor(s.clk[d], s.now, CurrentRate(rig, r, d))
  }

  lemma RerateIs(rig: Rig, s: Clocks, d: Device)
    requires Valid(rig, s) && d in rig.devices
    ensures var r := Rerate(rig, s, d); Valid(rig, r) && Rerated(rig, s, r, d) && r == s.(clk := r.clk)
  {
    SameRates(rig, s, Rerate(rig, s, d), d);
    hide Reanchor, CurrentRate, LatchesOk, GapsUntil, Wellformed;
  }

  /** `set_clock_source`: the devices named get the source, those for which it is another one go on at its rate, and
      nothing else changes. */
  lemma {:induction false} SourcePointwise(rig: Rig, s: Clocks, devs: seq<Device>, src: ClockSource, d: Device)
    requires Valid(rig, s) && d in rig.devices && forall i :: 0 <= i < |devs| ==> devs[i] in rig.devices
    ensures var r := SetSource(rig, s, devs, src);
            && Valid(rig, r) && r == s.(clk := r.clk, source := r.source) && d in r.source && d in s.source && d in r.clk && d in s.clk
            && r.source[d] == (if d in devs then src else s.source[d])
            && (if d in devs && s.source[d] != src then Rerated(rig, s, r, d) else r.clk[d] == s.clk[d])
    decreases |devs|
  {
    hide *;
    ClockOf(rig, s, d);
    SourceKeys(rig, s, d);
    SourceStart(rig, s, devs, src);
    if devs != [] {
      var x := devs[0];
      var s', r := SourceOne(rig, s, x, src), SetSource(rig, s, devs, src);
      SourceOneIs(rig, s, x, src, d);
      SourceOneValid(rig, s, x, src);
      SourcePointwise(rig, s', devs[1..], src, d);
      assert d in devs <==> d == x || d in devs[1..];
      SourceThen(rig, s, s', r, d, x, src, d in devs[1..]);
    }
  }

  lemma SourceKeys(rig: Rig, s: Clocks, d: Device)
    requires Valid(rig, s) && d in rig.devices
    ensures d in s.source
  {
    hide AllRunning, LatchesOk, GapsUntil, RigOk;
  }

  lemma SourceStart(rig: Rig, s: Clocks, devs: seq<Device>, src: ClockSource)
    requires Valid(rig, s) && forall i :: 0 <= i < |devs| ==> devs[i] in rig.devices
    ensures devs == [] ==> SetSource(rig, s, devs, src) == s
    ensures devs != [] ==> Valid(rig, SourceOne(rig, s, devs[0], src)) && SetSource(rig, s, devs, src) == SetSource(rig, SourceOne(rig, s, devs[0], src), devs[1..], src)
  {
    if devs != [] {
      SourceOneValid(rig, s, devs[0], src);
    }
    hide Rerate;
  }

  function SourceOne(rig: Rig, s: Clocks, x: Device, src: ClockSource): Clocks
    requires Valid(rig, s) && x in rig.devices
  {
    if s.source[x] == src then s else Rerate(rig, s.(source := s.source[x := src]), x)
  }

  lemma SourceOneValid(rig: Rig, s: Clocks, x: Device, src: ClockSource)
    requires Valid(rig, s) && x in rig.devices
    ensures var r := SourceOne(rig, s, x, src); Valid(rig, r) && r == s.(clk := r.clk, source := r.source)
  {
    hide CurrentRate, Reanchor;
  }

  lemma {:induction false} SourceOneIs(rig: Rig, s: Clocks, x: Device, src: ClockSource, d: Device)
    requires Valid(rig, s) && x in rig.devices && d in rig.devices
    ensures var r := SourceOne(rig, s, x, src);
            && Valid(rig, r) && d in r.source && d in s.source && d in r.clk && d in s.clk && r.now == s.now && r.unlocked == s.unlocked
            && r.source[d] == (if d == x then src else s.source[d])
            && (if d == x && s.source[d] != src then Rerated(rig, s, r, d) else r.clk[d] == s.clk[d])
  {
    SourceOneValid(rig, s, x, src);
    if s.source[x] != src {
      RerateIs(rig, s.(source := s.source[x := src]), x);
    }
    hide Reanchor, CurrentRate, LatchesOk, GapsUntil, Wellformed;
  }

  lemma SourceThen(rig: Rig, s: Clocks, s': Clocks, r: Clocks, d: Device, x: Device, src: ClockSource, later: bool)
    requires Valid(rig, s) && Valid(rig, s') && Valid(rig, r) && d in rig.devices && s'.now == s.now && s'.unlocked == s.unlocked == r.unlocked
    requires d in s.source && d in s'.source && d in r.source && d in s.clk && d in s'.clk && d in r.clk
    requires s'.source[d] == (if d == x then src else s.source[d])
    requires if d == x && s.source[d] != src then Rerated(rig, s, s', d) else s'.clk[d] == s.clk[d]
    requires r.source[d] == (if later then src else s'.source[d])
    requires if later && s'.source[d] != src then Rerated(rig, s', r, d) else r.clk[d] == s'.clk[d]
    ensures r.source[d] == (if d == x || later then src else s.source[d])
    ensures if (d == x || later) && s.source[d] != src then Rerated(rig, s, r, d) else r.clk[d] == s.clk[d]
  {
    hide Reanchor, LatchesOk, GapsUntil, Wellformed;
  }

  /** `set_master_clock_rate`: the devices named get the tick rate and their loaded time no longer counts. */
  lemma {:induction false} TickPointwise(rig: Rig, s: Clocks, devs: seq<Device>, tick: int, d: Device)
    requires Valid(rig, s) && d in rig.devices && tick > 0 && forall i :: 0 <= i < |devs| ==> devs[i] in rig.devices
    ensures var r := SetTick(s, devs, tick);
            && r == s.(tick := r.tick, loaded := r.loaded) && d in r.tick && d in s.tick
            && r.tick[d] == (if d in devs then tick else s.tick[d])
            && (d in r.loaded <==> d in s.loaded && d !in devs)
    decreases |devs|
  {
    if devs != [] {
      var s' := s.(tick := s.tick[devs[0] := tick], loaded := s.loaded - {devs[0]});
      assert Valid(rig, s') by { hide AllRunning, LatchesOk, GapsUntil, RigOk; }
      assert d in devs <==> d == devs[0] || d in devs[1..];
      hide Valid;
      TickPointwise(rig, s', devs[1..], tick, d);
    }
  }

  ghost predicate NoTwice(devs: seq<Device>) {
    forall i, j :: 0 <= i < j < |devs| ==> devs[i] != devs[j]
  }

  lemma {:induction false} RerateAllPointwise(rig: Rig, s: Clocks, devs: seq<Device>, d: Device)
    requires Valid(rig, s) && d in rig.devices && NoTwice(devs) && forall i :: 0 <= i < |devs| ==> devs[i] in rig.devices
    ensures var r := RerateAll(rig, s, devs);
            && Valid(rig, r) && r == s.(clk := r.clk) && d in r.clk && d in s.clk
            && (if d in devs then Rerated(rig, s, r, d) else r.clk[d] == s.clk[d])
    decreases |devs|
  {
    hide *;
    ClockOf(rig, s, d);
    RerateStart(rig, s, devs);
    if devs != [] {
      var s', r := Rerate(rig, s, devs[0]), RerateAll(rig, s, devs);
      RerateIs(rig, s, devs[0]);
      ClockOf(rig, s', d);
      RestNoTwice(devs);
      RerateAllPointwise(rig, s', devs[1..], d);
      assert d in devs <==> d == devs[0] || d in devs[1..];
      RerateThen(rig, s, s', r, d, devs[0], d in devs[1..]);
    }
  }

  lemma RerateStart(rig: Rig, s: Clocks, devs: seq<Device>)
    requires Valid(rig, s) && forall i :: 0 <= i < |devs| ==> devs[i] in rig.devices
    ensures devs == [] ==> RerateAll(rig, s, devs) == s
    ensures devs != [] ==> RerateAll(rig, s, devs) == RerateAll(rig, Rerate(rig, s, devs[0]), devs[1..])
  {
    hide Rerate, Valid;
  }

  lemma RestNoTwice(devs: seq<Device>)
    requires NoTwice(devs) && devs != []
    ensures NoTwice(devs[1..]) && devs[0] !in devs[1..]
  {
  }

  lemma RerateThen(rig: Rig, s: Clocks, s': Clocks, r: Clocks, d: Device, x: Device, later: bool)
    requires Valid(rig, s) && Valid(rig, s') && Valid(rig, r) && d in rig.devices && x in rig.devices && !(d == x && later)
    requires s' == s.(clk := s'.clk) && r == s'.(clk := r.clk) && d in s.clk && d in s'.clk && d in r.clk
    requires Rerated(rig, s, s', x) && (d != x ==> s'.clk[d] == s.clk[d])
    requires if later then Rerated(rig, s', r, d) else r.clk[d] == s'.clk[d]
    ensures r == s.(clk := r.clk) && if d == x || later then Rerated(rig, s, r, d) else r.clk[d] == s.clk[d]
  {
    SameRates(rig, s', r, d);
    hide Reanchor, CurrentRate, LatchesOk, GapsUntil, Wellformed;
  }

  /** `inject_fault("ref_unlock")`: exactly the devices named are unlocked from then on, whatever was unlocked before,
      and those go on at their own oscillator's rate. */
  lemma {:induction false} UnlockPointwise(rig: Rig, s: Clocks, devs: seq<Device>, d: Device)
    requires Valid(rig, s) && d in rig.devices && NoTwice(devs) && OpOk(rig, s, LoseReference(devs))
    ensures var r := Apply(rig, s, LoseReference(devs));
            && Valid(rig, r) && r == s.(clk := r.clk, unlocked := r.unlocked) && d in r.clk && d in s.clk
            && (d in r.unlocked <==> d in devs)
            && (if d in devs then r.clk[d] == Reanchor(s.clk[d], s.now, rig.internalRate[d]) else r.clk[d] == s.clk[d])
  {
    var u := s.(unlocked := set x | x in devs);
    assert Valid(rig, u) by { hide AllRunning, LatchesOk, GapsUntil, RigOk; }
    RerateAllPointwise(rig, u, devs, d);
    hide Reanchor, RerateAll, LatchesOk, GapsUntil, Wellformed;
  }

  /** `clear_faults`: PPS comes again, every reference is locked, and the devices that had lost it go on at its rate. */
  lemma {:induction false} ClearPointwise(rig: Rig, s: Clocks, order: seq<Device>, d: Device)
    requires Valid(rig, s) && d in rig.devices && NoTwice(order) && OpOk(rig, s, ClearFaults(order))
    ensures var r := Apply(rig, s, ClearFaults(order));
            && Valid(rig, r) && r == s.(clk := r.clk, unlocked := {}, gaps := r.gaps) && !Missing(r.gaps) && d in r.clk && d in s.clk
            && (if d in s.unlocked then Rerated(rig, s, r, d) else r.clk[d] == s.clk[d])
  {
    FaultsKeepThePast(s.gaps, s.now, 0);
    var u := s.(unlocked := {}, gaps := Clear(s.gaps, s.now));
    assert Valid(rig, u) by { hide AllRunning, LatchesOk, RigOk, Clear, GapsUntil; }
    RerateAllPointwise(rig, u, order, d);
    assert d in s.unlocked <==> d in order;
    hide Reanchor, RerateAll, LatchesOk, GapsUntil, Wellformed, Clear, CurrentRate;
  }

  /** `pps_missing` stops every edge from now on and `clear_faults` lets every edge from now on come; edges before stand,
      and a loss of PPS touches no clock. */
  lemma {:induction false} PpsStopsAndComes(rig: Rig, s: Clocks, order: seq<Device>, n: int)
    requires Valid(rig, s) && OpOk(rig, s, LosePps) && OpOk(rig, s, ClearFaults(order))
    ensures var r := Apply(rig, s, LosePps);
            && r == s.(gaps := r.gaps) && (Suppressed(r.gaps, n) <==> n as real >= s.now || Suppressed(s.gaps, n))
    ensures Suppressed(Apply(rig, s, ClearFaults(order)).gaps, n) <==> (n as real) < s.now && Suppressed(s.gaps, n)
  {
    hide RerateAll, Clear, Inject, Suppressed, LatchesOk, AllRunning, RigOk, Wellformed, Missing;
    FaultsKeepThePast(s.gaps, s.now, n);
    FaultsKeepThePast(Inject(s.gaps, s.now), s.now, n);
    FaultsKeepThePast(Clear(s.gaps, s.now), s.now, n);
  }

  // --- clocks run at the rate of their reference ---------------------------------------------------

  /** The clock of a device runs, from its last anchor on, at the rate of its present reference. */
  ghost predicate OnItsReference(rig: Rig, s: Clocks, d: Device)
    requires Valid(rig, s) && d in rig.devices
  {
    s.clk[d][|s.clk[d]| - 1].rate == CurrentRate(rig, s, d)
  }

  lemma LastOfLoad(c: seq<Anchor>, at: real, value: real, rate: real)
    ensures var l := Load(c, at, value, rate); |l| > 0 && l[|l| - 1].rate == rate
  {
  }

  lemma LastOfReanchor(c: seq<Anchor>, now: real, rate: real)
    requires Wellformed(c)
    ensures var l := Reanchor(c, now, rate); |l| > 0 && l[|l| - 1].rate == rate
  {
    ReanchorShape(c, now, rate);
    hide Reanchor, Passed, Reading;
  }

  /** The same clock and reference. */
  lemma SameReference(rig: Rig, s: Clocks, r: Clocks, d: Device)
    requires Valid(rig, s) && Valid(rig, r) && d in rig.devices && d in s.clk && d in r.clk && d in s.source && d in r.source
    requires r.clk[d] == s.clk[d] && r.source[d] == s.source[d] && (d in r.unlocked <==> d in s.unlocked)
    ensures OnItsReference(rig, r, d) <==> OnItsReference(rig, s, d)
  {
    hide LatchesOk, GapsUntil, Wellformed;
  }

  lemma LoadedOnReference(rig: Rig, s: Clocks, r: Clocks, d: Device, at: real, value: real)
    requires Valid(rig, s) && Valid(rig, r) && d in rig.devices && r.source == s.source && r.unlocked == s.unlocked && d in s.clk && d in r.clk
    requires RigOk(rig) && s.source.Keys == rig.devices && r.clk[d] == Load(s.clk[d], at, value, CurrentRate(rig, s, d))
    ensures OnItsReference(rig, r, d)
  {
    SameRates(rig, s, r, d);
    LastOfLoad(s.clk[d], at, value, CurrentRate(rig, s, d));
    hide Load, CurrentRate, LatchesOk, GapsUntil, Wellformed;
  }

  lemma ReratedOnReference(rig: Rig, s: Clocks, r: Clocks, d: Device)
    requires Valid(rig, s) && Valid(rig, r) && d in rig.devices && Rerated(rig, s, r, d)
    ensures OnItsReference(rig, r, d)
  {
    LastOfReanchor(s.clk[d], s.now, CurrentRate(rig, r, d));
    hide Reanchor, CurrentRate, LatchesOk, GapsUntil;
  }

  lemma {:induction false} AdvanceOnReference(rig: Rig, s: Clocks, to: real, d: Device)
    requires Valid(rig, s) && d in rig.devices && OnItsReference(rig, s, d)
    ensures Valid(rig, AdvanceTo(rig, s, to)) && OnItsReference(rig, AdvanceTo(rig, s, to), d)
  {
    AdvanceValid(rig, s, to);
    AdvanceFrame(rig, s, to);
    hide *;
    ClockOf(rig, s, d);
    SourceKeys(rig, s, d);
    var r := AdvanceTo(rig, s, to);
    ClockOf(rig, r, d);
    if to > s.now {
      if LatchOf(s.pending, d).Some? {
        var p := LatchOf(s.pending, d).value;
        WaitingLoads(rig, s, d, p, to);
        if FirstEdge(s.gaps, p.req, to).Some? {
          LoadedOnReference(rig, s, r, d, FirstEdge(s.gaps, p.req, to).value as real + p.latency, p.value);
        } else {
          SameReference(rig, s, r, d);
        }
      } else {
        NotWaiting(rig, s, d, to);
        SameReference(rig, s, r, d);
      }
    }
  }

  lemma AdvanceFrame(rig: Rig, s: Clocks, to: real)
    requires Valid(rig, s)
    ensures AdvanceTo(rig, s, to).source == s.source && AdvanceTo(rig, s, to).unlocked == s.unlocked
    ensures to <= s.now ==> AdvanceTo(rig, s, to) == s
  {
  }

  lemma NotWaiting(rig: Rig, s: Clocks, d: Device, to: real)
    requires Valid(rig, s) && d in rig.devices && to > s.now && LatchOf(s.pending, d).None?
    ensures d in s.clk && d in AdvanceTo(rig, s, to).clk && AdvanceTo(rig, s, to).clk[d] == s.clk[d]
  {
    ClockOf(rig, s, d);
    hide AdvanceTo, LatchOf, FirstEdge, Load, CurrentRate, GapsUntil, LatchesOk, Wellformed;
    AdvancePointwise(rig, s, to, d);
  }

  lemma {:induction false} QueueFrame(rig: Rig, s: Clocks, devs: seq<Device>, req: real, value: real)
    requires Valid(rig, s) && forall i :: 0 <= i < |devs| ==> devs[i] in rig.devices
    ensures var r := Queue(rig, s, devs, req, value); Valid(rig, r) && r == s.(pending := r.pending)
    decreases |devs|
  {
    if devs != [] {
      QueueOneValid(rig, s, devs[0], req, value);
      var s' := QueueOne(rig, s, devs[0], req, value);
      hide Valid;
      QueueFrame(rig, s', devs[1..], req, value);
    }
  }

  lemma {:induction false} QueueOnReference(rig: Rig, s: Clocks, devs: seq<Device>, req: real, value: real, d: Device)
    requires Valid(rig, s) && d in rig.devices && OnItsReference(rig, s, d) && forall i :: 0 <= i < |devs| ==> devs[i] in rig.devices
    ensures Valid(rig, Queue(rig, s, devs, req, value)) && OnItsReference(rig, Queue(rig, s, devs, req, value), d)
  {
    hide *;
    QueueFrame(rig, s, devs, req, value);
    ClockOf(rig, s, d);
    SourceKeys(rig, s, d);
    SameReference(rig, s, Queue(rig, s, devs, req, value), d);
  }

  lemma {:induction false} NowOnReference(rig: Rig, s: Clocks, loads: seq<(Device, real)>, value: real, d: Device)
    requires Valid(rig, s) && d in rig.devices && OnItsReference(rig, s, d) && forall j :: 0 <= j < |loads| ==> loads[j].0 in rig.devices
    ensures Valid(rig, TimeNow(rig, s, loads, value)) && OnItsReference(rig, TimeNow(rig, s, loads, value), d)
    decreases |loads|
  {
    hide *;
    NowStart(rig, s, loads, value);
    if loads != [] {
      var x := loads[0].0;
      var s' := TimeNowOne(rig, s, x, loads[0].1, value);
      OneNow(rig, s, x, loads[0].1, value);
      ReferenceKeys(rig, s);
      ClockOf(rig, s, d);
      ClockOf(rig, s', d);
      if d == x {
        LoadedOnReference(rig, s, s', d, s.now + loads[0].1, value);
      } else {
        OneNowOther(rig, s, x, loads[0].1, value, d);
        SameDeviceIs(rig, s, s', d);
        SameReference(rig, s, s', d);
      }
      NowOnReference(rig, s', loads[1..], value, d);
    }
  }

  lemma SameDeviceIs(rig: Rig, s: Clocks, r: Clocks, d: Device)
    requires Valid(rig, s) && Valid(rig, r) && d in rig.devices && SameDevice(rig, s, r, d)
    ensures d in r.clk && d in s.clk && d in r.source && d in s.source && r.clk[d] == s.clk[d] && r.source[d] == s.source[d]
    ensures d in r.unlocked <==> d in s.unlocked
  {
    hide LatchOf, LatchesOk, GapsUntil, Wellformed;
  }

  lemma {:induction false} RerateAllOnReference(rig: Rig, s: Clocks, devs: seq<Device>, d: Device)
    requires Valid(rig, s) && d in rig.devices && forall i :: 0 <= i < |devs| ==> devs[i] in rig.devices
    ensures var r := RerateAll(rig, s, devs);
            Valid(rig, r) && (OnItsReference(rig, r, d) <==> d in devs || OnItsReference(rig, s, d))
    decreases |devs|
  {
    hide *;
    RerateStart(rig, s, devs);
    if devs != [] {
      var x := devs[0];
      var s' := Rerate(rig, s, x);
      RerateIs(rig, s, x);
      ClockOf(rig, s, d);
      ClockOf(rig, s', d);
      SourceKeys(rig, s, d);
      if d == x {
        ReratedOnReference(rig, s, s', d);
      } else {
        SameReference(rig, s, s', d);
      }
      RerateAllOnReference(rig, s', devs[1..], d);
      assert d in devs <==> d == x || d in devs[1..];
    }
  }

  /** A second loss of reference that does not name a device which had lost it: the device counts as locked again, but
      its clock goes on at its own oscillator's rate. */
  predicate LeftBehind(rig: Rig, s: Clocks, op: TimeOp, d: Device)
    requires RigOk(rig) && s.source.Keys == rig.devices && d in rig.devices
  {
    op.LoseReference? && d in s.unlocked && d !in op.devs && CurrentRate(rig, s.(unlocked := {}), d) != rig.internalRate[d]
  }

  lemma {:induction false} LossOnReference(rig: Rig, s: Clocks, devs: seq<Device>, d: Device)
    requires Valid(rig, s) && d in rig.devices && OnItsReference(rig, s, d) && OpOk(rig, s, LoseReference(devs))
    ensures Valid(rig, Apply(rig, s, LoseReference(devs)))
    ensures OnItsReference(rig, Apply(rig, s, LoseReference(devs)), d) <==> !LeftBehind(rig, s, LoseReference(devs), d)
  {
    hide *;
    LossIs(rig, s, devs);
    var u := s.(unlocked := set x | x in devs);
    RerateAllOnReference(rig, u, devs, d);
    LeftBehindIs(rig, s, devs, d);
  }

  lemma LossIs(rig: Rig, s: Clocks, devs: seq<Device>)
    requires Valid(rig, s) && OpOk(rig, s, LoseReference(devs))
    ensures (forall i :: 0 <= i < |devs| ==> devs[i] in rig.devices) && Valid(rig, s.(unlocked := set x | x in devs))
    ensures Apply(rig, s, LoseReference(devs)) == RerateAll(rig, s.(unlocked := set x | x in devs), devs)
  {
    hide AllRunning, LatchesOk, GapsUntil, RigOk, RerateAll;
  }

  lemma LeftBehindIs(rig: Rig, s: Clocks, devs: seq<Device>, d: Device)
    requires Valid(rig, s) && d in rig.devices && OnItsReference(rig, s, d) && Valid(rig, s.(unlocked := set x | x in devs))
    ensures d in devs || OnItsReference(rig, s.(unlocked := set x | x in devs), d) <==> !LeftBehind(rig, s, LoseReference(devs), d)
  {
    hide LatchesOk, GapsUntil, Wellformed;
    var u := s.(unlocked := set x | x in devs);
    assert d in u.unlocked <==> d in devs;
  }

  lemma {:induction false} ClearOnReference(rig: Rig, s: Clocks, order: seq<Device>, d: Device)
    requires Valid(rig, s) && d in rig.devices && OnItsReference(rig, s, d) && OpOk(rig, s, ClearFaults(order))
    ensures Valid(rig, Apply(rig, s, ClearFaults(order))) && OnItsReference(rig, Apply(rig, s, ClearFaults(order)), d)
  {
    hide *;
    ClearIs(rig, s, order);
    var u := s.(unlocked := {}, gaps := Clear(s.gaps, s.now));
    RerateAllOnReference(rig, u, order, d);
    ClearedLocked(rig, s, u, order, d);
  }

  lemma ClearIs(rig: Rig, s: Clocks, order: seq<Device>)
    requires Valid(rig, s) && OpOk(rig, s, ClearFaults(order))
    ensures (forall i :: 0 <= i < |order| ==> order[i] in rig.devices) && Valid(rig, s.(unlocked := {}, gaps := Clear(s.gaps, s.now)))
    ensures Apply(rig, s, ClearFaults(order)) == RerateAll(rig, s.(unlocked := {}, gaps := Clear(s.gaps, s.now)), order)
    ensures forall d :: d in s.unlocked ==> d in order
  {
    FaultsKeepThePast(s.gaps, s.now, 0);
    hide AllRunning, LatchesOk, RigOk, Clear, GapsUntil, RerateAll;
  }

  lemma ClearedLocked(rig: Rig, s: Clocks, u: Clocks, order: seq<Device>, d: Device)
    requires Valid(rig, s) && Valid(rig, u) && d in rig.devices && OnItsReference(rig, s, d)
    requires u.unlocked == {} && u.clk == s.clk && u.source == s.source && forall x :: x in s.unlocked ==> x in order
    ensures d in order || OnItsReference(rig, u, d)
  {
    hide LatchesOk, GapsUntil, Wellformed;
  }

  lemma {:induction false} SourceOnReference(rig: Rig, s: Clocks, devs: seq<Device>, src: ClockSource, d: Device)
    requires Valid(rig, s) && d in rig.devices && OnItsReference(rig, s, d) && forall i :: 0 <= i < |devs| ==> devs[i] in rig.devices
    ensures Valid(rig, SetSource(rig, s, devs, src)) && OnItsReference(rig, SetSource(rig, s, devs, src), d)
  {
    hide *;
    SourcePointwise(rig, s, devs, src, d);
    var r := SetSource(rig, s, devs, src);
    if d in devs && s.source[d] != src {
      ReratedOnReference(rig, s, r, d);
    } else {
      SameReference(rig, s, r, d);
    }
  }

  /** Every time operation keeps the clock of a device at the rate of its reference, except exactly a loss of
      reference that leaves the device behind. */
  lemma {:induction false} OnReferenceExactly(rig: Rig, s: Clocks, op: TimeOp, d: Device)
    requires Valid(rig, s) && d in rig.devices && OnItsReference(rig, s, d) && OpOk(rig, s, op)
    ensures Valid(rig, Apply(rig, s, op)) && RigOk(rig) && s.source.Keys == rig.devices
    ensures OnItsReference(rig, Apply(rig, s, op), d) <==> !LeftBehind(rig, s, op, d)
  {
    ReferenceKeys(rig, s);
    ApplyKeeps(rig, s, op);
    match op
    case Advance(to) => AdvanceOnReference(rig, s, to, d); OtherOp(rig, s, op, d);
    case LatchNextPps(devs, v) => QueueOnReference(rig, s, devs, s.now, v, d); OtherOp(rig, s, op, d);
    case LatchUnknownPps(devs, v) => UnknownOnReference(rig, s, devs, v, d); OtherOp(rig, s, op, d);
    case LoadNow(loads, v) => NowOnReference(rig, s, loads, v, d); OtherOp(rig, s, op, d);
    case ChangeSource(devs, src) => SourceOnReference(rig, s, devs, src, d); OtherOp(rig, s, op, d);
    case ChangeTick(devs, tick) => TickOnReference(rig, s, devs, tick, d); OtherOp(rig, s, op, d);
    case LoseReference(devs) => LossOnReference(rig, s, devs, d);
    case LosePps => PpsOnReference(rig, s, d); OtherOp(rig, s, op, d);
    case ClearFaults(order) => ClearOnReference(rig, s, order, d); OtherOp(rig, s, op, d);
  }

  lemma OtherOp(rig: Rig, s: Clocks, op: TimeOp, d: Device)
    requires RigOk(rig) && s.source.Keys == rig.devices && d in rig.devices && !op.LoseReference?
    ensures !LeftBehind(rig, s, op, d)
  {
  }

  lemma {:induction false} UnknownOnReference(rig: Rig, s: Clocks, devs: seq<Device>, value: real, d: Device)
    requires Valid(rig, s) && d in rig.devices && OnItsReference(rig, s, d) && OpOk(rig, s, LatchUnknownPps(devs, value))
    ensures var r := Apply(rig, s, LatchUnknownPps(devs, value)); Valid(rig, r) && OnItsReference(rig, r, d)
  {
    hide *;
    UnknownIs(rig, s, devs, value);
    var first := FirstEdge(s.gaps, s.now, s.now + 3.0);
    if first.Some? {
      QueueOnReference(rig, s, devs, first.value as real, value, d);
      AdvanceOnReference(rig, Queue(rig, s, devs, first.value as real, value), first.value as real + 1.01, d);
    }
  }

  lemma UnknownIs(rig: Rig, s: Clocks, devs: seq<Device>, value: real)
    requires Valid(rig, s) && OpOk(rig, s, LatchUnknownPps(devs, value))
    ensures forall i :: 0 <= i < |devs| ==> devs[i] in rig.devices
    ensures var first := FirstEdge(s.gaps, s.now, s.now + 3.0);
            && (first.None? ==> Apply(rig, s, LatchUnknownPps(devs, value)) == s)
            && (first.Some? ==> && Valid(rig, Queue(rig, s, devs, first.value as real, value))
                                && Apply(rig, s, LatchUnknownPps(devs, value))
                                   == AdvanceTo(rig, Queue(rig, s, devs, first.value as real, value), first.value as real + 1.01))
  {
    assert forall i :: 0 <= i < |devs| ==> devs[i] in rig.devices;
    hide *;
    var first := FirstEdge(s.gaps, s.now, s.now + 3.0);
    if first.Some? {
      QueueValid(rig, s, devs, first.value as real, value);
    }
    UnknownPpsIs(rig, s, devs, value);
  }

  lemma UnknownPpsIs(rig: Rig, s: Clocks, devs: seq<Device>, value: real)
    requires Valid(rig, s) && OpOk(rig, s, LatchUnknownPps(devs, value)) && forall i :: 0 <= i < |devs| ==> devs[i] in rig.devices
    ensures var first := FirstEdge(s.gaps, s.now, s.now + 3.0);
            && (first.None? ==> Apply(rig, s, LatchUnknownPps(devs, value)) == s)
            && (first.Some? && Valid(rig, Queue(rig, s, devs, first.value as real, value)) ==>
                  Apply(rig, s, LatchUnknownPps(devs, value))
                  == AdvanceTo(rig, Queue(rig, s, devs, first.value as real, value), first.value as real + 1.01))
  {
    hide Valid, Queue, AdvanceTo, FirstEdge;
  }

  lemma TickOnReference(rig: Rig, s: Clocks, devs: seq<Device>, tick: int, d: Device)
    requires Valid(rig, s) && d in rig.devices && OnItsReference(rig, s, d) && OpOk(rig, s, ChangeTick(devs, tick))
    ensures Valid(rig, SetTick(s, devs, tick)) && OnItsReference(rig, SetTick(s, devs, tick), d)
  {
    SetTickValid(rig, s, devs, tick);
    TickPointwise(rig, s, devs, tick, d);
    ClockOf(rig, s, d);
    SourceKeys(rig, s, d);
    hide *;
    SameReference(rig, s, SetTick(s, devs, tick), d);
  }

  lemma PpsOnReference(rig: Rig, s: Clocks, d: Device)
    requires Valid(rig, s) && d in rig.devices && OnItsReference(rig, s, d)
    ensures var r := Apply(rig, s, LosePps); Valid(rig, r) && OnItsReference(rig, r, d)
  {
    ApplyKeeps(rig, s, LosePps);
    ClockOf(rig, s, d);
    SourceKeys(rig, s, d);
    var r := Apply(rig, s, LosePps);
    assert r.clk == s.clk && r.source == s.source && r.unlocked == s.unlocked by { hide Inject, Valid; }
    hide *;
    SameReference(rig, s, r, d);
  }

  /** No loss of reference in the run leaves the device behind. */
  ghost predicate NeverLeft(rig: Rig, s: Clocks, ops: seq<TimeOp>, d: Device)
    requires Valid(rig, s) && RunOk(rig, s, ops) && d in rig.devices
    decreases |ops|
  {
    ops == [] || (ApplyKeeps(rig, s, ops[0]); !LeftBehind(rig, s, ops[0], d) && NeverLeft(rig, Apply(rig, s, ops[0]), ops[1..], d))
  }

  /** In every run that never leaves it behind, the clock of a device runs at the rate of its reference. */
  lemma {:induction false} RunsOnItsReference(rig: Rig, s: Clocks, ops: seq<TimeOp>, d: Device)
    requires Valid(rig, s) && RunOk(rig, s, ops) && d in rig.devices && OnItsReference(rig, s, d) && NeverLeft(rig, s, ops, d)
    ensures Valid(rig, Run(rig, s, ops)) && OnItsReference(rig, Run(rig, s, ops), d)
    decreases |ops|
  {
    if ops != [] {
      hide Valid, Apply, OnItsReference, LeftBehind, OpOk, RigOk;
      OnReferenceExactly(rig, s, ops[0], d);
      RunsOnItsReference(rig, Apply(rig, s, ops[0]), ops[1..], d);
    }
  }

  /** Two devices on locked external or chassis references, past their last anchors, keep their distance. */
  lemma {:induction false} SharedReferenceKeepsDistance(rig: Rig, s: Clocks, d: Device, e: Device, T: real, U: real)
    requires Valid(rig, s) && d in rig.devices && e in rig.devices && OnItsReference(rig, s, d) && OnItsReference(rig, s, e)
    requires OnSharedReference(s, d) && OnSharedReference(s, e)
    requires s.clk[d][|s.clk[d]| - 1].at <= T && s.clk[e][|s.clk[e]| - 1].at <= T && T <= U
    ensures Reading(s.clk[d], U) - Reading(s.clk[e], U) == Reading(s.clk[d], T) - Reading(s.clk[e], T)
  {
    SharedClock(rig, s, d);
    SharedClock(rig, s, e);
    hide *;
    ClockOf(rig, s, d);
    ClockOf(rig, s, e);
    LastReading(rig, s, d, T);
    LastReading(rig, s, d, U);
    LastReading(rig, s, e, T);
    LastReading(rig, s, e, U);
  }

  lemma LastReading(rig: Rig, s: Clocks, d: Device, T: real)
    requires Valid(rig, s) && d in rig.devices && OnItsReference(rig, s, d) && s.clk[d][|s.clk[d]| - 1].at <= T
    requires CurrentRate(rig, s, d) == 0.0
    ensures Reading(s.clk[d], T) == s.clk[d][|s.clk[d]| - 1].shows + (T - s.clk[d][|s.clk[d]| - 1].at)
  {
    hide CurrentRate, LatchesOk, GapsUntil;
    GoverningIs(s.clk[d], T, |s.clk[d]| - 1);
  }

  /** Losing the reference of one device and then of another: the first counts as locked, and drifts. */
  lemma {:induction false} SecondLossLeavesDrift(rig: Rig, s: Clocks, d: Device, e: Device)
    requires Valid(rig, s) && d in rig.devices && e in rig.devices && d != e && OnItsReference(rig, s, d)
    requires OnSharedReference(s, d) && d in rig.internalRate && rig.internalRate[d] != 0.0
    ensures var ops := [LoseReference([d]), LoseReference([e])];
            && RunOk(rig, s, ops) && Valid(rig, Run(rig, s, ops))
            && OnSharedReference(Run(rig, s, ops), d) && CurrentRate(rig, Run(rig, s, ops), d) == 0.0 && !OnItsReference(rig, Run(rig, s, ops), d)
  {
    hide *;
    var a, b := LoseReference([d]), LoseReference([e]);
    OneDevice(rig, s, d);
    OneLoss(rig, s, d, d);
    OnReferenceExactly(rig, s, a, d);
    NamedIsNotLeft(rig, s, d);
    var s1 := Apply(rig, s, a);
    OneDevice(rig, s1, e);
    OneLoss(rig, s1, e, d);
    OnReferenceExactly(rig, s1, b, d);
    SharedAgain(rig, s, s1, Apply(rig, s1, b), d, e);
    TwoOps(rig, s, a, b);
  }

  lemma NamedIsNotLeft(rig: Rig, s: Clocks, d: Device)
    requires RigOk(rig) && s.source.Keys == rig.devices && d in rig.devices
    ensures !LeftBehind(rig, s, LoseReference([d]), d)
  {
  }

  lemma OneDevice(rig: Rig, s: Clocks, d: Device)
    requires Valid(rig, s) && d in rig.devices
    ensures OpOk(rig, s, LoseReference([d])) && NoTwice([d])
  {
    hide Valid;
  }

  lemma OneLoss(rig: Rig, s: Clocks, x: Device, d: Device)
    requires Valid(rig, s) && d in rig.devices && x in rig.devices && OpOk(rig, s, LoseReference([x])) && NoTwice([x])
    ensures var r := Apply(rig, s, LoseReference([x])); Valid(rig, r) && r.source == s.source && (d in r.unlocked <==> d == x)
  {
    hide Valid, Apply, OpOk, Reanchor;
    UnlockPointwise(rig, s, [x], d);
  }

  lemma SharedAgain(rig: Rig, s: Clocks, s1: Clocks, s2: Clocks, d: Device, e: Device)
    requires Valid(rig, s) && Valid(rig, s1) && Valid(rig, s2) && d in rig.devices && d != e && OnSharedReference(s, d)
    requires s1.source == s.source && s2.source == s.source && d in s1.unlocked && d !in s2.unlocked && d in rig.internalRate && rig.internalRate[d] != 0.0
    ensures RigOk(rig) && s.source.Keys == rig.devices == s1.source.Keys == s2.source.Keys
    ensures OnSharedReference(s2, d) && CurrentRate(rig, s2, d) == 0.0
    ensures !LeftBehind(rig, s, LoseReference([d]), d) && LeftBehind(rig, s1, LoseReference([e]), d)
  {
    hide AllRunning, LatchesOk, GapsUntil;
  }

  lemma TwoOps(rig: Rig, s: Clocks, a: TimeOp, b: TimeOp)
    requires Valid(rig, s) && OpOk(rig, s, a) && Valid(rig, Apply(rig, s, a)) && OpOk(rig, Apply(rig, s, a), b)
    ensures RunOk(rig, s, [a, b]) && Run(rig, s, [a, b]) == Apply(rig, Apply(rig, s, a), b)
  {
    hide Apply, Valid, OpOk;
    OneOp(rig, Apply(rig, s, a), b);
    assert [a, b][1..] == [b];
  }

  lemma OneOp(rig: Rig, s: Clocks, a: TimeOp)
    requires Valid(rig, s) && OpOk(rig, s, a)
    ensures RunOk(rig, s, [a]) && Run(rig, s, [a]) == Apply(rig, s, a)
  {
    ApplyKeeps(rig, s, a);
    hide Apply, Valid, OpOk;
    assert [a][1..] == [];
  }
}
