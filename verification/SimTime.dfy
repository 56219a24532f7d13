/** Time loads, reference changes and faults of the simulator, and what holds in every run of them. */
module SimTimes {
  import opened Results
  import opened DeviceClocks
  import opened Pps
  import opened SimClocks

  // --- PPS-latched time loads ------------------------------------------------------------------

  function Without(pending: seq<Latch>, d: Device): seq<Latch>
    decreases |pending|
  {
    if pending == [] then []
    else (if pending[0].dev != d then [pending[0]] else []) + Without(pending[1..], d)
  }

  /** Queues one latch per device, replacing the one a device already waits for. */
  function Queue(rig: Rig, s: Clocks, devs: seq<Device>, req: real, value: real): (r: Clocks)
    requires Valid(rig, s) && forall i :: 0 <= i < |devs| ==> devs[i] in rig.devices
    decreases |devs|
  {
    if devs == [] then s
    else
      QueueOneValid(rig, s, devs[0], req, value);
      Queue(rig, QueueOne(rig, s, devs[0], req, value), devs[1..], req, value)
  }

  function QueueOne(rig: Rig, s: Clocks, d: Device, req: real, value: real): Clocks
    requires Valid(rig, s) && d in rig.devices
  {
    s.(pending := Without(s.pending, d) + [Latch(d, req, value, Latency(rig, s, d))])
  }

  lemma {:induction false} WithoutIsPart(pending: seq<Latch>, d: Device)
    ensures forall i :: 0 <= i < |Without(pending, d)| ==> Without(pending, d)[i] in pending && Without(pending, d)[i].dev != d
    ensures OnePerDevice(pending) ==> OnePerDevice(Without(pending, d))
    decreases |pending|
  {
    if pending != [] {
      WithoutIsPart(pending[1..], d);
      var rest := Without(pending[1..], d);
      if OnePerDevice(pending) {
        forall i | 0 <= i < |rest| ensures rest[i].dev != pending[0].dev {
          var j :| 0 <= j < |pending[1..]| && pending[1..][j] == rest[i];
          assert pending[0].dev != pending[j + 1].dev;
        }
      }
    }
  }

  lemma QueueOneValid(rig: Rig, s: Clocks, d: Device, req: real, value: real)
    requires Valid(rig, s) && d in rig.devices
    ensures Valid(rig, QueueOne(rig, s, d, req, value))
  {
    WithoutIsPart(s.pending, d);
  }

  lemma {:induction false} LatchOfAppended(kept: seq<Latch>, p: Latch, d: Device)
    ensures LatchOf(kept + [p], d) ==
            if LatchOf(kept, d).Some? then LatchOf(kept, d) else if p.dev == d then Some(p) else None
    decreases |kept|
  {
    if kept != [] {
      LatchOfAppended(kept[1..], p, d);
      assert (kept + [p])[1..] == kept[1..] + [p];
    }
  }

  lemma {:induction false} LatchOfWithout(pending: seq<Latch>, gone: Device, d: Device)
    ensures LatchOf(Without(pending, gone), d) == if d == gone then None else LatchOf(pending, d)
    decreases |pending|
  {
    if pending != [] {
      LatchOfWithout(pending[1..], gone, d);
      var rest := Without(pending[1..], gone);
      if pending[0].dev == gone {
        assert Without(pending, gone) == rest;
      } else {
        assert Without(pending, gone) == [pending[0]] + rest;
        hide Without;
        assert ([pending[0]] + rest)[1..] == rest;
      }
    }
  }

  /** After queueing, each device of the call waits for exactly the new latch; others are untouched. */
  lemma {:induction false} QueuePointwise(rig: Rig, s: Clocks, devs: seq<Device>, req: real, value: real, d: Device)
    requires Valid(rig, s) && d in rig.devices && forall i :: 0 <= i < |devs| ==> devs[i] in rig.devices
    ensures var r := Queue(rig, s, devs, req, value);
            && Valid(rig, r)
            && r == s.(pending := r.pending)
            && LatchOf(r.pending, d) == (if d in devs then Some(Latch(d, req, value, Latency(rig, s, d))) else LatchOf(s.pending, d))
    decreases |devs|
  {
    if devs != [] {
      var s' := QueueOne(rig, s, devs[0], req, value);
      QueueOneValid(rig, s, devs[0], req, value);
      QueuePointwise(rig, s', devs[1..], req, value, d);
      LatchOfWithout(s.pending, devs[0], d);
      LatchOfAppended(Without(s.pending, devs[0]), Latch(devs[0], req, value, Latency(rig, s, devs[0])), d);
    }
  }

  /** `set_time_next_pps`: the next edge after now. */
  function NextPps(rig: Rig, s: Clocks, devs: seq<Device>, value: real): Clocks
    requires Valid(rig, s) && forall i :: 0 <= i < |devs| ==> devs[i] in rig.devices
  {
    Queue(rig, s, devs, s.now, value)
  }

  /** `set_time_unknown_pps`: waits up to 3 s for an edge, loads at the edge after it, returns 10 ms later. */
  function UnknownPps(rig: Rig, s: Clocks, devs: seq<Device>, value: real): Result<Clocks>
    requires Valid(rig, s) && forall i :: 0 <= i < |devs| ==> devs[i] in rig.devices
  {
    var first := FirstEdge(s.gaps, s.now, s.now + 3.0);
    if first.None? then Err(HardwareFault)
    else
      QueueValid(rig, s, devs, first.value as real, value);
      Ok(AdvanceTo(rig, Queue(rig, s, devs, first.value as real, value), first.value as real + 1.01))
  }

  lemma {:induction false} QueueValid(rig: Rig, s: Clocks, devs: seq<Device>, req: real, value: real)
    requires Valid(rig, s) && forall i :: 0 <= i < |devs| ==> devs[i] in rig.devices
    ensures Valid(rig, Queue(rig, s, devs, req, value))
    ensures Queue(rig, s, devs, req, value).now == s.now
    decreases |devs|
  {
    if devs != [] {
      QueueOneValid(rig, s, devs[0], req, value);
      QueueValid(rig, QueueOne(rig, s, devs[0], req, value), devs[1..], req, value);
    }
  }

  /** The present decides the edges to come: all of them, or none while PPS is missing. */
  lemma {:induction false} EdgesToCome(gaps: seq<Gap>, now: real, T: real, until: real)
    requires GapsUntil(gaps, now) && now <= T && T.Floor as real + 1.0 <= until
    ensures FirstEdge(gaps, T, until) == if Missing(gaps) then None else Some(T.Floor + 1)
  {
    forall n | n >= T.Floor + 1 ensures Suppressed(gaps, n) <==> Missing(gaps) {
      FaultsKeepThePast(gaps, now, n);
    }
  }

  /** The edge at which `set_time_unknown_pps` called at `now` loads. */
  function LoadEdge(now: real): int {
    now.Floor + 2
  }

  /** The call fails exactly when PPS is missing; otherwise the whole group is loaded at one common
      edge, each device its own latency later, and none of them is left waiting. */
  lemma {:induction false} UnknownPpsLoadsTheGroup(rig: Rig, s: Clocks, devs: seq<Device>, value: real, d: Device)
    requires Valid(rig, s) && d in devs && forall i :: 0 <= i < |devs| ==> devs[i] in rig.devices
    ensures UnknownPps(rig, s, devs, value).Err? <==> Missing(s.gaps)
    ensures UnknownPps(rig, s, devs, value).Ok? ==>
              var r := UnknownPps(rig, s, devs, value).value;
              && Valid(rig, r) && r.now == LoadEdge(s.now) as real + 0.01
              && r.clk[d] == Load(s.clk[d], LoadEdge(s.now) as real + Latency(rig, s, d), value, CurrentRate(rig, s, d))
              && d in r.loaded
              && LatchOf(r.pending, d).None?
  {
    hide Load, FirstEdge, CommitAll, Kept, Committed, Queue, LatchOf, Latency;
    EdgesToCome(s.gaps, s.now, s.now, s.now + 3.0);
    if !Missing(s.gaps) {
      var e := s.now.Floor + 1;
      QueuePointwise(rig, s, devs, e as real, value, d);
      var q := Queue(rig, s, devs, e as real, value);
      assert (e as real).Floor == e;
      EdgesToCome(s.gaps, s.now, e as real, e as real + 1.01);
      AdvancePointwise(rig, q, e as real + 1.01, d);
      AdvanceValid(rig, q, e as real + 1.01);
    }
  }

  /** A device is on a shared reference when an external or chassis clock drives it and is locked. */
  predicate OnSharedReference(s: Clocks, d: Device) {
    d in s.source && (s.source[d].External? || s.source[d].Mboard?) && d !in s.unlocked
  }

  /** After the load, on a shared reference, a device stays behind the master by exactly its latency. */
  lemma {:induction false} SlaveLagsByItsLatency(rig: Rig, s: Clocks, devs: seq<Device>, value: real, d: Device, T: real)
    requires Valid(rig, s) && forall i :: 0 <= i < |devs| ==> devs[i] in rig.devices
    requires d in devs && rig.master in devs && !Missing(s.gaps)
    requires OnSharedReference(s, d) && OnSharedReference(s, rig.master)
    requires T >= LoadEdge(s.now) as real && T >= LoadEdge(s.now) as real + Latency(rig, s, d)
    ensures UnknownPps(rig, s, devs, value).Ok?
    ensures var r := UnknownPps(rig, s, devs, value).value;
            && rig.master in r.clk && d in r.clk && |r.clk[d]| > 0 && |r.clk[rig.master]| > 0
            && Reading(r.clk[rig.master], T) - Reading(r.clk[d], T) == Latency(rig, s, d)
  {
    hide *;
    SharedClock(rig, s, d);
    SharedClock(rig, s, rig.master);
    var e, lat := LoadEdge(s.now) as real, Latency(rig, s, d);
    UnknownPpsLoadsTheGroup(rig, s, devs, value, d);
    UnknownPpsLoadsTheGroup(rig, s, devs, value, rig.master);
    MasterHasNoLatency(rig, s);
    LoadReadings(s.clk[d], e + lat, value, 0.0, T);
    LoadReadings(s.clk[rig.master], e, value, 0.0, T);
    NominalLine(e + lat, value, T);
    NominalLine(e, value, T);
    var r := UnknownPps(rig, s, devs, value).value;
    ClockOf(rig, r, d);
    ClockOf(rig, r, rig.master);
  }

  lemma ClockOf(rig: Rig, s: Clocks, d: Device)
    requires Valid(rig, s) && d in rig.devices
    ensures d in s.clk && |s.clk[d]| > 0 && Wellformed(s.clk[d]) && d in s.tick && s.tick[d] > 0
  {
  }

  lemma SharedClock(rig: Rig, s: Clocks, d: Device)
    requires Valid(rig, s) && d in rig.devices && OnSharedReference(s, d)
    ensures d in s.clk && Wellformed(s.clk[d]) && d in s.tick && s.tick[d] > 0
    ensures RigOk(rig) && s.source.Keys == rig.devices && CurrentRate(rig, s, d) == 0.0
  {
    hide Wellformed, LatchesOk, GapsUntil;
  }

  lemma NominalLine(at: real, value: real, T: real)
    ensures Line(Anchor(at, value, 0.0), T) == value + (T - at)
  {
  }

  lemma MasterHasNoLatency(rig: Rig, s: Clocks)
    requires rig.master in s.tick && s.tick[rig.master] > 0
    ensures Latency(rig, s, rig.master) == 0.0
  {
  }

  // --- immediate loads, references, faults -----------------------------------------------------

  /** `set_time_now`: each device takes the value after its own host latency. */
  function TimeNow(rig: Rig, s: Clocks, loads: seq<(Device, real)>, value: real): Clocks
    requires Valid(rig, s) && forall i :: 0 <= i < |loads| ==> loads[i].0 in rig.devices
    decreases |loads|
  {
    if loads == [] then s
    else
      TimeNowOneValid(rig, s, loads[0].0, loads[0].1, value);
      TimeNow(rig, TimeNowOne(rig, s, loads[0].0, loads[0].1, value), loads[1..], value)
  }

  function TimeNowOne(rig: Rig, s: Clocks, d: Device, latency: real, value: real): Clocks
    requires Valid(rig, s) && d in rig.devices
  {
    s.(pending := Without(s.pending, d),
       clk := s.clk[d := Load(s.clk[d], s.now + latency, value, CurrentRate(rig, s, d))],
       loaded := s.loaded + {d})
  }

  lemma TimeNowOneValid(rig: Rig, s: Clocks, d: Device, latency: real, value: real)
    requires Valid(rig, s) && d in rig.devices
    ensures Valid(rig, TimeNowOne(rig, s, d, latency, value))
  {
    WithoutIsPart(s.pending, d);
    LoadWellformed(s.clk[d], s.now + latency, value, CurrentRate(rig, s, d));
  }

  /** Gives a device the rate of its present reference, keeping its clock continuous. */
  function Rerate(rig: Rig, s: Clocks, d: Device): (r: Clocks)
    requires Valid(rig, s) && d in rig.devices
    ensures Valid(rig, r)
    ensures r == s.(clk := r.clk) && forall x :: x in rig.devices && x != d ==> r.clk[x] == s.clk[x]
  {
    RerateValid(rig, s, d);
    s.(clk := s.clk[d := Reanchor(s.clk[d], s.now, CurrentRate(rig, s, d))])
  }

  lemma RerateValid(rig: Rig, s: Clocks, d: Device)
    requires Valid(rig, s) && d in rig.devices
    ensures Valid(rig, s.(clk := s.clk[d := Reanchor(s.clk[d], s.now, CurrentRate(rig, s, d))]))
  {
    ReanchorWellformed(s.clk[d], s.now, CurrentRate(rig, s, d));
    hide Reanchor, LatchesOk, GapsUntil, RigOk, CurrentRate, Wellformed;
  }

  function RerateAll(rig: Rig, s: Clocks, devs: seq<Device>): (r: Clocks)
    requires Valid(rig, s) && forall i :: 0 <= i < |devs| ==> devs[i] in rig.devices
    ensures Valid(rig, r) && r == s.(clk := r.clk)
    decreases |devs|
  {
    if devs == [] then s else RerateAll(rig, Rerate(rig, s, devs[0]), devs[1..])
  }

  /** `set_clock_source`: only devices whose source changes are re-rated. */
  function SetSource(rig: Rig, s: Clocks, devs: seq<Device>, src: ClockSource): (r: Clocks)
    requires Valid(rig, s) && forall i :: 0 <= i < |devs| ==> devs[i] in rig.devices
    ensures Valid(rig, r) && r == s.(clk := r.clk, source := r.source)
    decreases |devs|
  {
    if devs == [] then s
    else
      var d := devs[0];
      var s' := if s.source[d] == src then s else Rerate(rig, s.(source := s.source[d := src]), d);
      SetSource(rig, s', devs[1..], src)
  }

  /** `set_master_clock_rate`: another tick grid, and the loaded time no longer counts. */
  function SetTick(s: Clocks, devs: seq<Device>, tick: int): Clocks
    decreases |devs|
  {
    if devs == [] then s
    else SetTick(s.(tick := s.tick[devs[0] := tick], loaded := s.loaded - {devs[0]}), devs[1..], tick)
  }

  lemma {:induction false} SetTickValid(rig: Rig, s: Clocks, devs: seq<Device>, tick: int)
    requires Valid(rig, s) && tick > 0 && forall i :: 0 <= i < |devs| ==> devs[i] in rig.devices
    ensures Valid(rig, SetTick(s, devs, tick)) && SetTick(s, devs, tick).now == s.now && SetTick(s, devs, tick).gaps == s.gaps
    decreases |devs|
  {
    if devs != [] {
      SetTickValid(rig, s.(tick := s.tick[devs[0] := tick], loaded := s.loaded - {devs[0]}), devs[1..], tick);
    }
  }

  // --- every run -------------------------------------------------------------------------------

  datatype TimeOp =
    | Advance(to: real)
    | LatchNextPps(devs: seq<Device>, value: real)
    | LatchUnknownPps(devs: seq<Device>, value: real)
    | LoadNow(loads: seq<(Device, real)>, value: real)
    | ChangeSource(devs: seq<Device>, src: ClockSource)
    | ChangeTick(devs: seq<Device>, tick: int)
    | LoseReference(devs: seq<Device>)
    | LosePps
    | ClearFaults(order: seq<Device>)

  /** The devices named exist, and `order` lists the devices whose reference was lost. */
  ghost predicate OpOk(rig: Rig, s: Clocks, op: TimeOp) {
    match op
    case LatchNextPps(devs, _) => forall i :: 0 <= i < |devs| ==> devs[i] in rig.devices
    case LatchUnknownPps(devs, _) => forall i :: 0 <= i < |devs| ==> devs[i] in rig.devices
    case LoadNow(loads, _) => forall i :: 0 <= i < |loads| ==> loads[i].0 in rig.devices
    case ChangeSource(devs, _) => forall i :: 0 <= i < |devs| ==> devs[i] in rig.devices
    case ChangeTick(devs, tick) => tick > 0 && forall i :: 0 <= i < |devs| ==> devs[i] in rig.devices
    case LoseReference(devs) => forall i :: 0 <= i < |devs| ==> devs[i] in rig.devices
    case ClearFaults(order) =>
      (set d | d in order) == s.unlocked && forall i :: 0 <= i < |order| ==> order[i] in rig.devices
    case _ => true
  }

  function Apply(rig: Rig, s: Clocks, op: TimeOp): Clocks
    requires Valid(rig, s) && OpOk(rig, s, op)
  {
    match op
    case Advance(to) => AdvanceTo(rig, s, to)
    case LatchNextPps(devs, v) => NextPps(rig, s, devs, v)
    case LatchUnknownPps(devs, v) => var r := UnknownPps(rig, s, devs, v); if r.Ok? then r.value else s
    case LoadNow(loads, v) => TimeNow(rig, s, loads, v)
    case ChangeSource(devs, src) => SetSource(rig, s, devs, src)
    case ChangeTick(devs, tick) => SetTick(s, devs, tick)
    case LoseReference(devs) => RerateAll(rig, s.(unlocked := set d | d in devs), devs)
    case LosePps => s.(gaps := Inject(s.gaps, s.now))
    case ClearFaults(order) =>
      FaultsKeepThePast(s.gaps, s.now, 0);
      RerateAll(rig, s.(unlocked := {}, gaps := Clear(s.gaps, s.now)), order)
  }

  /** Edges strictly before `now` keep their state. */
  ghost predicate SamePast(gaps: seq<Gap>, gaps': seq<Gap>, now: real) {
    forall n: int :: (n as real) < now ==> (Suppressed(gaps', n) <==> Suppressed(gaps, n))
  }

  /** A later state of the same run: every clock non-empty, sorted and begun, every device at one
      latch at most, the gaps in the past; time has not gone back and the PPS history stands. */
  ghost predicate Follows(rig: Rig, s: Clocks, r: Clocks) {
    Valid(rig, r) && r.now >= s.now && SamePast(s.gaps, r.gaps, s.now)
  }

  lemma FaultsFollow(gaps: seq<Gap>, now: real)
    requires GapsUntil(gaps, now)
    ensures SamePast(gaps, Inject(gaps, now), now) && SamePast(gaps, Clear(gaps, now), now)
    ensures GapsUntil(Inject(gaps, now), now) && GapsUntil(Clear(gaps, now), now)
  {
    hide Inject, Clear, Suppressed;
    FaultsKeepThePast(gaps, now, 0);
    forall n: int | (n as real) < now
      ensures Suppressed(Inject(gaps, now), n) <==> Suppressed(gaps, n)
      ensures Suppressed(Clear(gaps, now), n) <==> Suppressed(gaps, n)
    {
      FaultsKeepThePast(gaps, now, n);
    }
  }

  lemma UnknownPpsFollows(rig: Rig, s: Clocks, devs: seq<Device>, value: real)
    requires Valid(rig, s) && forall i :: 0 <= i < |devs| ==> devs[i] in rig.devices
    requires UnknownPps(rig, s, devs, value).Ok?
    ensures Follows(rig, s, UnknownPps(rig, s, devs, value).value)
  {
    hide FirstEdge, Queue, CommitAll, Kept, Committed, Suppressed;
    var e := FirstEdge(s.gaps, s.now, s.now + 3.0).value as real;
    QueueValid(rig, s, devs, e, value);
    QueueKeepsGaps(rig, s, devs, e, value);
    AdvanceValid(rig, Queue(rig, s, devs, e, value), e + 1.01);
  }

  /** Every operation leads to a state that follows. */
  lemma {:induction false} ApplyKeeps(rig: Rig, s: Clocks, op: TimeOp)
    requires Valid(rig, s) && OpOk(rig, s, op)
    ensures Follows(rig, s, Apply(rig, s, op))
  {
    hide AdvanceTo, UnknownPps, Queue, TimeNow, SetSource, SetTick, RerateAll, Inject, Clear, Suppressed, GapsUntil;
    match op
    case Advance(to) =>
      AdvanceValid(rig, s, to);
      AdvanceKeepsGaps(rig, s, to);
    case LatchNextPps(devs, v) =>
      QueueValid(rig, s, devs, s.now, v);
      QueueKeepsGaps(rig, s, devs, s.now, v);
    case LatchUnknownPps(devs, v) =>
      if UnknownPps(rig, s, devs, v).Ok? { UnknownPpsFollows(rig, s, devs, v); }
    case LoadNow(loads, v) => TimeNowValid(rig, s, loads, v);
    case ChangeSource(devs, src) =>
    case ChangeTick(devs, tick) => SetTickValid(rig, s, devs, tick);
    case LoseReference(devs) =>
    case LosePps => FaultsFollow(s.gaps, s.now);
    case ClearFaults(order) => FaultsFollow(s.gaps, s.now);
  }

  lemma AdvanceKeepsGaps(rig: Rig, s: Clocks, to: real)
    requires Valid(rig, s)
    ensures AdvanceTo(rig, s, to).gaps == s.gaps
  {
  }

  lemma {:induction false} QueueKeepsGaps(rig: Rig, s: Clocks, devs: seq<Device>, req: real, value: real)
    requires Valid(rig, s) && forall i :: 0 <= i < |devs| ==> devs[i] in rig.devices
    ensures Queue(rig, s, devs, req, value).gaps == s.gaps
    decreases |devs|
  {
    if devs != [] {
      QueueOneValid(rig, s, devs[0], req, value);
      QueueKeepsGaps(rig, QueueOne(rig, s, devs[0], req, value), devs[1..], req, value);
    }
  }

  lemma {:induction false} TimeNowValid(rig: Rig, s: Clocks, loads: seq<(Device, real)>, value: real)
    requires Valid(rig, s) && forall i :: 0 <= i < |loads| ==> loads[i].0 in rig.devices
    ensures Valid(rig, TimeNow(rig, s, loads, value))
    ensures TimeNow(rig, s, loads, value).now == s.now && TimeNow(rig, s, loads, value).gaps == s.gaps
    decreases |loads|
  {
    if loads != [] {
      TimeNowOneValid(rig, s, loads[0].0, loads[0].1, value);
      TimeNowValid(rig, TimeNowOne(rig, s, loads[0].0, loads[0].1, value), loads[1..], value);
    }
  }

  ghost predicate RunOk(rig: Rig, s: Clocks, ops: seq<TimeOp>)
    requires Valid(rig, s)
    decreases |ops|
  {
    ops == [] || (OpOk(rig, s, ops[0]) && (ApplyKeeps(rig, s, ops[0]); RunOk(rig, Apply(rig, s, ops[0]), ops[1..])))
  }

  function Run(rig: Rig, s: Clocks, ops: seq<TimeOp>): Clocks
    requires Valid(rig, s) && RunOk(rig, s, ops)
    decreases |ops|
  {
    if ops == [] then s
    else
      ApplyKeeps(rig, s, ops[0]);
      Run(rig, Apply(rig, s, ops[0]), ops[1..])
  }

  /** In every run all device clocks stay well formed, one latch waits per device at most, and the
      PPS history is append-only. */
  lemma {:induction false} RunKeeps(rig: Rig, s: Clocks, ops: seq<TimeOp>)
    requires Valid(rig, s) && RunOk(rig, s, ops)
    ensures Follows(rig, s, Run(rig, s, ops))
    decreases |ops|
  {
    hide Apply, Suppressed;
    if ops != [] {
      ApplyKeeps(rig, s, ops[0]);
      RunKeeps(rig, Apply(rig, s, ops[0]), ops[1..]);
    }
  }
}
