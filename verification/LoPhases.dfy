/** The reported phase state against the phases really drawn, and what an unchanged coherence
    generation says about them. */
module LoPhases {
  import opened Results
  import opened LoPlans
  import opened Backends
  import opened SimLos

  // --- the reported class against the drawn class ----------------------------------------------

  lemma SameExports(cfg: Cfg, plan: Plan, s: Sys, dir: Direction)
    requires Tracks(s)
    ensures AnyExportOn(cfg, plan, s.b.lo.exp, dir) == AnyExportOn(cfg, plan, s.sim.exp, dir)
  {
    hide Exporter;
  }

  /** The programmed share, as the base class sees it, is the physical one. */
  lemma LiveIsActive(cfg: Cfg, plan: Plan, s: Sys, d: DeviceCfg, dir: Direction)
    requires Tracks(s)
    ensures plan.Star? || plan.TwinRx?
            ==> (ShareLive(cfg, plan, d, dir, s.b.lo.src, s.b.lo.exp) <==> Active(cfg, plan, s.sim, d, dir))
    ensures plan.ExternalLo?
            ==> (ShareLive(cfg, plan, d, dir, s.b.lo.src, s.b.lo.exp) <==> LoSourceOf(s.sim.src, (d.name, dir)) == FromExternal)
  {
    SameExports(cfg, plan, s, dir);
    var k := (d.name, dir);
    assert LoSourceOf(s.b.lo.src, k) == LoSourceOf(s.sim.src, k);
    assert ExportOn(s.b.lo.exp, k) == ExportOn(s.sim.exp, k);
    hide AnyExportOn, AnyExporter;
  }

  function Reported(cfg: Cfg, s: Sys, d: DeviceCfg, dir: Direction, f: real, timed: bool): PhaseClass {
    var plan := ResolvePlan(cfg);
    ReportedClass(cfg, plan, d, f, timed, ShareLive(cfg, plan, d, dir, s.b.lo.src, s.b.lo.exp))
  }

  /** The LO is shared with the device, or within the only device. */
  predicate RunsShared(cfg: Cfg, s: SimLo, d: DeviceCfg, dir: Direction, f: real) {
    var plan := ResolvePlan(cfg);
    || (plan.Star? && Active(cfg, plan, s, d, dir) && f >= d.caps.shareMinHz)
    || (plan.TwinRx? && Active(cfg, plan, s, d, dir))
    || (|cfg.devices| == 1 && d.caps.share.IntraDevice?)
  }

  /** An external LO in use on a device that does not run from a shared LO and whose family would otherwise
      be stable, though the plan is not the external-LO plan. */
  predicate Overrated(cfg: Cfg, s: Sys, d: DeviceCfg, dir: Direction, f: real, timed: bool) {
    && !ResolvePlan(cfg).ExternalLo? && !RunsShared(cfg, s.sim, d, dir, f)
    && d.caps.external180 && d.loSource.FromExternal? && LoSourceOf(s.sim.src, (d.name, dir)) == FromExternal
    && (d.caps.deterministic || (timed && d.caps.timedTune && d.caps.repeatable))
  }

  /** The class reported for a device ranks above the class drawn exactly when the device is overrated. */
  lemma {:induction false} ReportedOutranksExactly(cfg: Cfg, s: Sys, d: DeviceCfg, dir: Direction, f: real, timed: bool)
    requires Tracks(s)
    ensures Rank(Reported(cfg, s, d, dir, f, timed)) > Rank(PhysicalClass(cfg, s.sim, d, dir, f, timed))
            <==> Overrated(cfg, s, d, dir, f, timed)
    ensures !Overrated(cfg, s, d, dir, f, timed) && Stable(Reported(cfg, s, d, dir, f, timed))
            ==> Reported(cfg, s, d, dir, f, timed) == PhysicalClass(cfg, s.sim, d, dir, f, timed)
  {
    var plan := ResolvePlan(cfg);
    LiveIsActive(cfg, plan, s, d, dir);
    assert !Shared(cfg, plan, d) ==> !Active(cfg, plan, s.sim, d, dir);
    hide ShareLive, Active, Shared, ResolvePlan;
  }

  /** One device of a family with a fixed phase and the external-LO ambiguity, outside the capability table. */
  const Ambiguous: DeviceCfg :=
    DeviceCfg("a", "custom", NoShare, Caps(NoShare, false, true, 0.0, true, true, false, false, [], false),
              1000000.0, 6000000000.0, FromExternal, false, [0], [])

  const AmbiguousBench: Cfg := Cfg([Ambiguous], Some(NoPlan), "", 1000000.0, 1000000000.0, 0.0, true)

  /** Opened and switched to its external LO, the device is reported deterministic and draws a phase with
      the 180 degree ambiguity. */
  lemma {:induction false} OverratedDevice(w: World, f: real, timed: bool)
    ensures var s := SysRun(AmbiguousBench, w, AtStart(AmbiguousBench, w), [OpenOp(true), LoSourceOp(Rx, ChannelRef("a", 0), FromExternal)]);
            && Reported(AmbiguousBench, s, Ambiguous, Rx, f, timed) == Deterministic
            && PhysicalClass(AmbiguousBench, s.sim, Ambiguous, Rx, f, timed) == Ambiguous180
            && Rank(Reported(AmbiguousBench, s, Ambiguous, Rx, f, timed)) > Rank(PhysicalClass(AmbiguousBench, s.sim, Ambiguous, Rx, f, timed))
            && Overrated(AmbiguousBench, s, Ambiguous, Rx, f, timed)
  {
    hide Constructed;
    var cfg, ops := AmbiguousBench, [OpenOp(true), LoSourceOp(Rx, ChannelRef("a", 0), FromExternal)];
    assert cfg.devices[0] == Ambiguous && 0 in Channels(cfg.devices[0], Rx);
    assert Configured(cfg, Rx, ChannelRef("a", 0)) && CanImport(cfg, "a");
    var s1 := SysApply(cfg, w, AtStart(cfg, w), ops[0]);
    var s2 := SysApply(cfg, w, s1, ops[1]);
    assert s1.b.open && s2.sim.src == s1.sim.src[("a", Rx) := FromExternal];
    hide SysApply;
    assert ops[1..][1..] == [];
    assert SysRun(cfg, w, AtStart(cfg, w), ops) == SysRun(cfg, w, s1, ops[1..]) == s2;
  }

  lemma TimedNeverWorse(cfg: Cfg, s: Sys, d: DeviceCfg, dir: Direction, f: real, timed: bool, reallyTimed: bool)
    requires timed ==> reallyTimed
    ensures Rank(Reported(cfg, s, d, dir, f, timed)) <= Rank(Reported(cfg, s, d, dir, f, reallyTimed))
    ensures Stable(Reported(cfg, s, d, dir, f, timed))
            ==> Reported(cfg, s, d, dir, f, timed) == Reported(cfg, s, d, dir, f, reallyTimed)
  {
    hide ShareLive, Shared, ResolvePlan;
  }

  /** Families with the 180 degree external-LO ambiguity are otherwise random. */
  ghost predicate TableOk(cfg: Cfg) {
    forall i :: 0 <= i < |cfg.devices| && cfg.devices[i].caps.external180 ==>
      !cfg.devices[i].caps.deterministic && !(cfg.devices[i].caps.timedTune && cfg.devices[i].caps.repeatable)
  }

  /** Nobody is overrated then; and a stable report is the drawn class, even if the tune was physically
      timed and reported as late. */
  lemma {:induction false} TableMakesReportsSafe(cfg: Cfg, s: Sys, d: DeviceCfg, dir: Direction, f: real, timed: bool, reallyTimed: bool)
    requires Tracks(s) && TableOk(cfg) && d in cfg.devices && (timed ==> reallyTimed)
    ensures Rank(Reported(cfg, s, d, dir, f, timed)) <= Rank(PhysicalClass(cfg, s.sim, d, dir, f, reallyTimed))
    ensures Stable(Reported(cfg, s, d, dir, f, timed))
            ==> Reported(cfg, s, d, dir, f, timed) == PhysicalClass(cfg, s.sim, d, dir, f, reallyTimed)
  {
    TimedNeverWorse(cfg, s, d, dir, f, timed, reallyTimed);
    ReportedOutranksExactly(cfg, s, d, dir, f, reallyTimed);
    assert !Overrated(cfg, s, d, dir, f, reallyTimed) by {
      if d.caps.external180 {
        var i :| 0 <= i < |cfg.devices| && cfg.devices[i] == d;
      }
    }
  }

  // --- whole tunes -----------------------------------------------------------------------------

  lemma {:induction false} WithChannelsUnique(devs: seq<DeviceCfg>, dir: Direction)
    requires UniqueNames(devs)
    ensures UniqueNames(WithChannels(devs, dir))
  {
    if devs != [] {
      var init, d := devs[..|devs| - 1], devs[|devs| - 1];
      WithChannelsUnique(init, dir);
      var m := WithChannels(init, dir);
      forall i | 0 <= i < |m| ensures m[i].name != d.name {
        assert m[i] in init;
      }
    }
  }

  lemma {:induction false} DrawOfDevice(cfg: Cfg, w: World, s: SimLo, dir: Direction, center: real, n: nat, at: bool, ahead: set<string>, devs: seq<DeviceCfg>, i: nat)
    requires UniqueNames(devs) && i < |devs|
    ensures var m := DrawsOf(cfg, w, s, dir, center, n, at, ahead, devs);
            var k := (devs[i].name, dir);
            && k in m
            && m[k] == Draw(PhysicalClass(cfg, s, devs[i], dir, center, PhysicallyTimed(w, devs[i], at, ahead)),
                            center, n, DrawCount(s, k) + 1)
  {
    hide PhysicalClass, PhysicallyTimed, DrawCount;
    if i < |devs| - 1 {
      DrawOfDevice(cfg, w, s, dir, center, n, at, ahead, devs[..|devs| - 1], i);
      assert devs[|devs| - 1].name != devs[i].name;
    }
  }

  /** The tune the base class and the simulator carry out. */
  predicate TuneHappens(cfg: Cfg, s: Sys, op: SysOp) {
    op.TuneOp? && AtLeast(cfg, s.b, RefsSet) && op.f > 0.0
  }

  function TuneReportOf(cfg: Cfg, w: World, s: Sys, op: SysOp): TuneReport
    requires op.TuneOp?
  {
    var o := BaseOp(cfg, w, s, op);
    Report(cfg, s.b, o.dir, o.fOld, o.late, o.result.value)
  }

  /** What a tune leaves in the simulator for device i of the direction. */
  lemma DrawAfterTune(cfg: Cfg, w: World, s: Sys, op: SysOp, i: nat)
    requires UniqueNames(cfg.devices) && TuneHappens(cfg, s, op)
    requires i < |WithChannels(cfg.devices, op.dir)|
    ensures var devs := WithChannels(cfg.devices, op.dir);
            var d, center := devs[i], ClampFreq(devs, op.f);
            var sim := SimAfter(cfg, w, s, op);
            && Fc(cfg, sim, op.dir) == center
            && (d.name, op.dir) in sim.drawn
            && sim.drawn[(d.name, op.dir)] == Draw(PhysicalClass(cfg, s.sim, d, op.dir, center, PhysicallyTimed(w, d, op.at, op.ahead)),
                                                   center, TuneCount(sim, op.dir), DrawCount(s.sim, (d.name, op.dir)) + 1)
  {
    assert SimAfter(cfg, w, s, op) == SimTune(cfg, w, s.sim, op.dir, op.f, op.at, op.ahead);
    hide SimAfter, SimTune, PhysicalClass, PhysicallyTimed, ClampFreq, TuneHappens, WithChannels, Fc, TuneCount, DrawCount;
    SimTuneDraws(cfg, w, s.sim, op.dir, op.f, op.at, op.ahead, i);
  }

  lemma SimTuneDraws(cfg: Cfg, w: World, s: SimLo, dir: Direction, f: real, at: bool, ahead: set<string>, i: nat)
    requires UniqueNames(cfg.devices) && i < |WithChannels(cfg.devices, dir)|
    ensures var devs := WithChannels(cfg.devices, dir);
            var d, center := devs[i], ClampFreq(devs, f);
            var sim := SimTune(cfg, w, s, dir, f, at, ahead);
            && Fc(cfg, sim, dir) == center
            && (d.name, dir) in sim.drawn
            && sim.drawn[(d.name, dir)] == Draw(PhysicalClass(cfg, s, d, dir, center, PhysicallyTimed(w, d, at, ahead)),
                                                center, TuneCount(sim, dir), DrawCount(s, (d.name, dir)) + 1)
  {
    hide PhysicalClass, PhysicallyTimed, ClampFreq, DrawCount, DrawsOf;
    var devs := WithChannels(cfg.devices, dir);
    WithChannelsUnique(cfg.devices, dir);
    DrawOfDevice(cfg, w, s, dir, ClampFreq(devs, f), TuneCount(s, dir) + 1, at, ahead, devs, i);
    hide WithChannels, UniqueNames;
  }

  /** The report bounds what every device of the direction would report, and is timed only if all are. */
  lemma ReportOfTune(cfg: Cfg, w: World, s: Sys, op: SysOp, i: nat)
    requires op.TuneOp? && i < |WithChannels(cfg.devices, op.dir)|
    ensures var devs := WithChannels(cfg.devices, op.dir);
            var r := TuneReportOf(cfg, w, s, op);
            && r.center == ClampFreq(devs, op.f)
            && (r.timed ==> PhysicallyTimed(w, devs[i], op.at, op.ahead))
            && Rank(r.cls) <= Rank(Reported(cfg, s, devs[i], op.dir, r.center, r.timed))
  {
    hide PhysicallyTimed, ClampFreq, ReportedClass, ShareLive, BandCrossed, FloorCrossed, ResolvePlan;
    var devs := WithChannels(cfg.devices, op.dir);
    var r := TuneReportOf(cfg, w, s, op);
    assert Members(cfg, op.dir) == devs;
    assert ReportedClasses(cfg, op.dir, r.center, r.timed, s.b.lo.src, s.b.lo.exp)[i] == Reported(cfg, s, devs[i], op.dir, r.center, r.timed);
    assert cfg.devices != [];
  }

  ghost predicate DrawFits(cfg: Cfg, d: DeviceCfg, c: PhaseClass) {
    (c.Deterministic? ==> d.caps.deterministic) && (c.Repeatable? ==> !d.caps.deterministic)
  }

  lemma PhysicalFits(cfg: Cfg, s: SimLo, d: DeviceCfg, dir: Direction, f: real, timed: bool)
    ensures DrawFits(cfg, d, PhysicalClass(cfg, s, d, dir, f, timed))
  {
    hide Active, ResolvePlan;
  }

  /** A tune's draws against its report. */
  lemma {:induction false} TuneDraws(cfg: Cfg, w: World, s: Sys, op: SysOp, i: nat)
    requires UniqueNames(cfg.devices) && TableOk(cfg) && Tracks(s) && TuneHappens(cfg, s, op)
    requires i < |WithChannels(cfg.devices, op.dir)|
    ensures var d := WithChannels(cfg.devices, op.dir)[i];
            var sim, r := SimAfter(cfg, w, s, op), TuneReportOf(cfg, w, s, op);
            && (d.name, op.dir) in sim.drawn
            && var draw := sim.drawn[(d.name, op.dir)];
               && draw.f == r.center == Fc(cfg, sim, op.dir)
               && draw.tunes == TuneCount(sim, op.dir)
               && Rank(r.cls) <= Rank(draw.cls)
               && (Stable(r.cls) ==> draw.cls == Reported(cfg, s, d, op.dir, r.center, r.timed))
               && DrawFits(cfg, d, draw.cls)
  {
    DrawAfterTune(cfg, w, s, op, i);
    ReportOfTune(cfg, w, s, op, i);
    var devs := WithChannels(cfg.devices, op.dir);
    assert devs[i] in cfg.devices;
    hide PhysicalClass, SimAfter, TuneReportOf, Reported, ClampFreq, TuneCount, Fc, AtLeast, PhysicallyTimed, WithChannels;
    var d, dir := devs[i], op.dir;
    var r := TuneReportOf(cfg, w, s, op);
    var really := PhysicallyTimed(w, d, op.at, op.ahead);
    TableMakesReportsSafe(cfg, s, d, dir, r.center, r.timed, really);
    PhysicalFits(cfg, s.sim, d, dir, r.center, really);
    if Stable(r.cls) {
      StableAbove(r.cls, Reported(cfg, s, d, dir, r.center, r.timed));
    }
  }

  lemma StableAbove(c: PhaseClass, d: PhaseClass)
    requires Rank(c) <= Rank(d) && Stable(c)
    ensures Stable(d)
  {
  }

  /** The phase state reported by a tune never ranks above the class of any draw of that tune. */
  lemma {:induction false} ReportIsConservative(cfg: Cfg, w: World, s: Sys, op: SysOp, i: nat)
    requires UniqueNames(cfg.devices) && TableOk(cfg) && Tracks(s) && TuneHappens(cfg, s, op)
    requires i < |WithChannels(cfg.devices, op.dir)|
    ensures var d := WithChannels(cfg.devices, op.dir)[i];
            var t := SysApply(cfg, w, s, op);
            && (d.name, op.dir) in t.sim.drawn && op.dir in t.b.rf.last
            && Rank(t.b.rf.last[op.dir].cls) <= Rank(t.sim.drawn[(d.name, op.dir)].cls)
  {
    TuneDraws(cfg, w, s, op, i);
    hide AtLeast, SimAfter, TuneResult, TuneReportOf, WithChannels;
    TuneRecords(cfg, w, s, op);
  }

  lemma TuneRecords(cfg: Cfg, w: World, s: Sys, op: SysOp)
    requires TuneHappens(cfg, s, op)
    ensures var b, r := SysApply(cfg, w, s, op).b, TuneReportOf(cfg, w, s, op);
            && b.rf.last == s.b.rf.last[op.dir := LastTune(r.center, op.lo, r.timed, r.cls)]
            && b.generation == s.b.generation + if op.bump && NeedsBump(r) then 1 else 0
  {
    hide AtLeast, TuneResult, PhaseAfterTune, FloorCrossed;
  }
}
