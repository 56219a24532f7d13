/** The simulator's time state updated in place, each method against its function on values. */
module SimClockObjects {
  import opened Results
  import opened DeviceClocks
  import opened Pps
  import opened SimClocks
  import opened SimTimes

  /** The pass over the pending latches: those whose edge has come are loaded, the others kept. */
  method CommitPending(rig: Rig, s: Clocks, to: real)
    returns (clk: map<Device, seq<Anchor>>, keep: seq<Latch>, loaded: set<Device>)
    requires Valid(rig, s)
    ensures clk == CommitAll(rig, s, s.clk, s.pending, to)
    ensures keep == Kept(s.gaps, s.pending, to)
    ensures loaded == s.loaded + Committed(s.gaps, s.pending, to)
  {
    hide CommitAll, Kept, Committed, Load, FirstEdge, Wellformed, CurrentRate;
    var todo := s.pending;
    clk, keep, loaded := s.clk, [], s.loaded;
    assert todo[0..] == todo;
    for i := 0 to |todo|
      invariant AllRunning(rig.devices, clk, s.now)
      invariant CommitAll(rig, s, clk, todo[i..], to) == CommitAll(rig, s, s.clk, todo, to)
      invariant keep + Kept(s.gaps, todo[i..], to) == Kept(s.gaps, todo, to)
      invariant loaded + Committed(s.gaps, todo[i..], to) == s.loaded + Committed(s.gaps, todo, to)
    {
      CommitStep(rig, s, clk, todo, i, to);
      var p := todo[i];
      var e := EdgeAfter(s.gaps, p.req, to);
      if e.None? {
        keep := keep + [p];
      } else {
        clk := clk[p.dev := Load(clk[p.dev], e.value as real + p.latency, p.value, CurrentRate(rig, s, p.dev))];
        loaded := loaded + {p.dev};
      }
    }
    assert todo[|todo|..] == [];
    FinishedCommit(rig, s, clk, to);
  }

  class SimClock {
    const rig: Rig
    var now: real
    var clk: map<Device, seq<Anchor>>
    var pending: seq<Latch>
    var gaps: seq<Gap>
    var loaded: set<Device>
    var source: map<Device, ClockSource>
    var unlocked: set<Device>
    var tick: map<Device, int>

    function View(): Clocks
      reads this
    {
      Clocks(now, clk, pending, gaps, loaded, source, unlocked, tick)
    }

    ghost predicate Ok()
      reads this
    {
      Valid(rig, View())
    }

    /** Boots every clock at its own offset on the internal reference, as the simulator does at T0 = 41/4 s. */
    constructor (rig: Rig, boot: map<Device, real>, tick: map<Device, int>)
      requires RigOk(rig) && boot.Keys == rig.devices == tick.Keys
      requires forall d :: d in rig.devices ==> tick[d] > 0
      ensures Ok() && this.rig == rig && now == 10.25 && pending == [] && gaps == [] && loaded == {}
      ensures forall d :: d in rig.devices ==> clk[d] == [Anchor(0.0, boot[d], rig.internalRate[d])]
    {
      this.rig := rig;
      now, pending, gaps, loaded, unlocked := 10.25, [], [], {}, {};
      clk := map d | d in rig.devices :: [Anchor(0.0, boot[d], rig.internalRate[d])];
      source := map d | d in rig.devices :: Internal;
      this.tick := tick;
    }

    function Rate(d: Device): real
      requires Ok() && d in rig.devices
      reads this
    {
      CurrentRate(rig, View(), d)
    }

    /** `_advance_to`: one pass over the pending latches, then the new time. */
    method Advance(to: real)
      requires Ok()
      modifies this
      ensures Ok() && View() == AdvanceTo(rig, old(View()), to)
    {
      if to <= now {
        return;
      }
      AdvanceValid(rig, View(), to);
      var c, keep, l := CommitPending(rig, View(), to);
      clk, pending, loaded, now := c, keep, l, to;
    }

    /** `_reanchor` */
    method ReanchorDevice(d: Device)
      requires Ok() && d in rig.devices
      modifies this`clk
      ensures Ok() && View() == Rerate(rig, old(View()), d)
    {
      ghost var goal := Rerate(rig, View(), d);
      var r := Rate(d);
      var t := DeviceTime(clk[d], now);
      hide UpTo, After, Reading, AllRunning, LatchesOk, GapsUntil, RigOk, CurrentRate, Wellformed;
      clk := clk[d := UpTo(clk[d], now) + [Anchor(now, t, r)] + After(clk[d], now, r)];
      assert View() == goal;
    }

    /** `_do_set_clock_source` */
    method SetClockSource(devs: seq<Device>, src: ClockSource)
      requires Ok() && forall i :: 0 <= i < |devs| ==> devs[i] in rig.devices
      modifies this
      ensures Ok() && View() == SetSource(rig, old(View()), devs, src)
    {
      ghost var s := View();
      hide Rerate, AllRunning, LatchesOk, GapsUntil, RigOk;
      for i := 0 to |devs|
        invariant Ok() && SetSource(rig, View(), devs[i..], src) == SetSource(rig, s, devs, src)
      {
        assert devs[i..][0] == devs[i] && devs[i..][1..] == devs[i + 1..];
        if source[devs[i]] != src {
          source := source[devs[i] := src];
          ReanchorDevice(devs[i]);
        }
      }
    }

    /** `_do_set_time_next_pps`, and the queueing half of `_do_set_time_unknown_pps`. */
    method QueueLatches(devs: seq<Device>, req: real, value: real)
      requires Ok() && forall i :: 0 <= i < |devs| ==> devs[i] in rig.devices
      modifies this`pending
      ensures Ok() && View() == Queue(rig, old(View()), devs, req, value)
    {
      ghost var s := View();
      for i := 0 to |devs|
        invariant Ok() && Queue(rig, View(), devs[i..], req, value) == Queue(rig, s, devs, req, value)
      {
        assert devs[i..][0] == devs[i] && devs[i..][1..] == devs[i + 1..];
        QueueOneValid(rig, View(), devs[i], req, value);
        pending := Without(pending, devs[i]) + [Latch(devs[i], req, value, Latency(rig, View(), devs[i]))];
      }
    }

    /** `_do_set_time_unknown_pps`: false (a hardware fault) when no edge comes within 3 s. */
    method SetTimeUnknownPps(devs: seq<Device>, value: real) returns (ok: bool)
      requires Ok() && forall i :: 0 <= i < |devs| ==> devs[i] in rig.devices
      modifies this
      ensures Ok() && ok == UnknownPps(rig, old(View()), devs, value).Ok?
      ensures View() == if ok then UnknownPps(rig, old(View()), devs, value).value else old(View())
    {
      hide Queue, AdvanceTo, Valid, FirstEdge;
      var first := EdgeAfter(gaps, now, now + 3.0);
      ok := first.Some?;
      if ok {
        QueueLatches(devs, first.value as real, value);
        Advance(first.value as real + 1.01);
      }
    }

    /** `_do_set_time_now`: loads at once, each device after its own host latency. */
    method SetTimeNow(loads: seq<(Device, real)>, value: real)
      requires Ok() && forall i :: 0 <= i < |loads| ==> loads[i].0 in rig.devices
      modifies this
      ensures Ok() && View() == TimeNow(rig, old(View()), loads, value)
    {
      ghost var s := View();
      hide Valid, TimeNowOne;
      for i := 0 to |loads|
        invariant Ok() && TimeNow(rig, View(), loads[i..], value) == TimeNow(rig, s, loads, value)
      {
        assert loads[i..][0] == loads[i] && loads[i..][1..] == loads[i + 1..];
        SetOneNow(loads[i].0, loads[i].1, value);
      }
    }

    method SetOneNow(d: Device, latency: real, value: real)
      requires Ok() && d in rig.devices
      modifies this
      ensures Ok() && View() == TimeNowOne(rig, old(View()), d, latency, value)
    {
      hide Load, AllRunning, LatchesOk, GapsUntil, CurrentRate, Without, RigOk;
      TimeNowOneValid(rig, View(), d, latency, value);
      RunningKeys(rig.devices, clk, now);
      ghost var goal := TimeNowOne(rig, View(), d, latency, value);
      clk := clk[d := Load(clk[d], now + latency, value, Rate(d))];
      pending := Without(pending, d);
      loaded := loaded + {d};
      assert View() == goal;
    }

    /** The PPS part of `inject_fault("pps_missing")`. */
    method InjectPpsMissing()
      requires Ok()
      modifies this`gaps
      ensures Ok() && View() == Apply(rig, old(View()), LosePps)
    {
      ApplyKeeps(rig, View(), LosePps);
      if !Missing(gaps) {
        gaps := gaps + [Gap(now, None)];
      }
    }

    /** `inject_fault("ref_unlock")`: the fault replaces an earlier one, then each device is re-rated. */
    method InjectRefUnlock(devs: seq<Device>)
      requires Ok() && forall i :: 0 <= i < |devs| ==> devs[i] in rig.devices
      modifies this
      ensures Ok() && View() == Apply(rig, old(View()), LoseReference(devs))
    {
      hide RerateAll, AllRunning, LatchesOk, GapsUntil, RigOk;
      unlocked := set d | d in devs;
      RerateEach(devs);
    }

    method RerateEach(devs: seq<Device>)
      requires Ok() && forall i :: 0 <= i < |devs| ==> devs[i] in rig.devices
      modifies this`clk
      ensures Ok() && View() == RerateAll(rig, old(View()), devs)
    {
      ghost var s := View();
      hide Rerate, Valid;
      for i := 0 to |devs|
        invariant Ok() && RerateAll(rig, View(), devs[i..]) == RerateAll(rig, s, devs)
      {
        assert devs[i..][0] == devs[i] && devs[i..][1..] == devs[i + 1..];
        ReanchorDevice(devs[i]);
      }
    }

    /** The time part of `clear_faults`: closes the open gap, relocks every reference. */
    method ClearTimeFaults(order: seq<Device>)
      requires Ok() && OpOk(rig, View(), ClearFaults(order))
      modifies this
      ensures Ok() && View() == Apply(rig, old(View()), ClearFaults(order))
    {
      FaultsKeepThePast(gaps, now, 0);
      ghost var gaps0 := gaps;
      unlocked := {};
      for i := 0 to |gaps|
        invariant |gaps| == |gaps0| && View() == old(View()).(unlocked := {}, gaps := gaps)
        invariant forall j :: 0 <= j < |gaps| ==> gaps[j] == if j < i then Clear(gaps0, now)[j] else gaps0[j]
      {
        if gaps[i].end.None? {
          gaps := gaps[i := Gap(gaps[i].start, Some(now))];
        }
      }
      assert gaps == Clear(gaps0, now);
      RerateEach(order);
    }
  }
}
