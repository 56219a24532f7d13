/** Runs in which channels move against each other although the coherence generation stays the same: a
    TwinRX device next to a UBX device, with the capabilities of their families. */
module LoMoves {
  import opened Results
  import opened LoPlans
  import opened Backends
  import opened SimLos
  import opened LoPhases
  import opened LoReproduction
  import opened LoExactness

  // --- the first tune after an open ------------------------------------------------------------

  /** A timed tune of a stable class across no band edge or floor, in a direction not tuned since the last open. */
  predicate StableFirstTune(cfg: Cfg, w: World, s: Sys, op: SysOp) {
    && TuneHappens(cfg, s, op) && op.dir !in s.b.rf.last
    && var r := TuneReportOf(cfg, w, s, op); r.timed && Stable(r.cls) && !r.bandChange
  }

  /** It leaves the generation alone and draws a stable class for every device. */
  lemma {:induction false} FirstTuneIsUnbumped(cfg: Cfg, w: World, s: Sys, op: SysOp, i: nat)
    requires UniqueNames(cfg.devices) && TableOk(cfg) && Tracks(s) && StableFirstTune(cfg, w, s, op)
    requires i < |WithChannels(cfg.devices, op.dir)|
    ensures var t, k := SysApply(cfg, w, s, op), (WithChannels(cfg.devices, op.dir)[i].name, op.dir);
            t.b.generation == s.b.generation && k in t.sim.drawn && Stable(t.sim.drawn[k].cls)
  {
    TuneRecords(cfg, w, s, op);
    TuneDraws(cfg, w, s, op, i);
    var r := TuneReportOf(cfg, w, s, op);
    assert !r.classChanged;
    assert SysApply(cfg, w, s, op).sim == SimAfter(cfg, w, s, op);
    hide SysApply, SimAfter, TuneReportOf, WithChannels, Tracks, TableOk, TuneHappens, Fc, TuneCount, Reported, DrawFits;
    StableAbove(r.cls, SimAfter(cfg, w, s, op).drawn[(WithChannels(cfg.devices, op.dir)[i].name, op.dir)].cls);
  }

  /** Any tune, bumped or not, and any two different channels of its direction: their relation is the same
      before and after in every seed exactly when the draws kept classes, sharing and frequency. */
  lemma {:induction false} TuneReproducesExactly(cfg: Cfg, w: World, s: Sys, op: SysOp, i: nat, j: nat, cx: int, cy: int)
    requires UniqueNames(cfg.devices) && w.period > 0.0 && Reachable(cfg, w, s) && TuneHappens(cfg, s, op)
    requires i < |WithChannels(cfg.devices, op.dir)| && j < |WithChannels(cfg.devices, op.dir)|
    requires ChannelRef(WithChannels(cfg.devices, op.dir)[i].name, cx) != ChannelRef(WithChannels(cfg.devices, op.dir)[j].name, cy)
    ensures var t, a, b := SysApply(cfg, w, s, op), (WithChannels(cfg.devices, op.dir)[i].name, op.dir), (WithChannels(cfg.devices, op.dir)[j].name, op.dir);
            && a in s.sim.drawn && b in s.sim.drawn && a in t.sim.drawn && b in t.sim.drawn
            && (Preserved(w.period, s.sim, t.sim, op.dir, ChannelRef(a.0, cx), ChannelRef(b.0, cy))
                <==> Kept(s.sim.drawn[a], s.sim.drawn[b], t.sim.drawn[a], t.sim.drawn[b]))
  {
    assert op.TuneOp? by { hide AtLeast; }
    hide *;
    OneRun(cfg, w, s, op);
    TuneCounts(cfg, w, s, op);
    PairReproducedExactly(cfg, w, s, [op], op.dir, i, j, cx, cy);
  }

  // --- the bench -------------------------------------------------------------------------------

  const Twin: DeviceCfg :=
    DeviceCfg("rx0", "x310_twinrx", TwinShare, Caps(TwinShare, true, true, 0.0, false, false, true, true, [], false),
              10000000.0, 6000000000.0, FromCompanion, false, [0, 1], [])

  const Ubx: DeviceCfg :=
    DeviceCfg("rx1", "x310_ubx", NoShare, Caps(NoShare, false, false, 0.0, false, false, true, true, [], false),
              10000000.0, 6000000000.0, FromInternal, false, [0], [])

  const Bench: Cfg := Cfg([Twin, Ubx], None, "", 1000000.0, 1000000000.0, 0.0, false)

  const Untimed: SysOp := TuneOp(Rx, 1000000000.0, 0.0, false, {}, false, true)
  const Timed: SysOp := TuneOp(Rx, 1000000000.0, 0.0, true, {"rx0", "rx1"}, false, true)
  const Companion: SysOp := LoSourceOp(Rx, ChannelRef("rx0", 0), FromCompanion)

  /** Open and set clock and time sources. */
  const Session: seq<SysOp> := [OpenOp(true), PlainOp(OpClockSource(None, true)), PlainOp(OpTimeSource(None, true))]

  const Closing: SysOp := PlainOp(OpClose)

  lemma BenchDevices()
    ensures WithChannels(Bench.devices, Rx) == [Twin, Ubx] && DeviceNames(Bench) == {"rx0", "rx1"}
    ensures UniqueNames(Bench.devices) && TableOk(Bench) && ResolvePlan(Bench) == TwinRx
    ensures Twin.name == "rx0" && Ubx.name == "rx1" && Twin.name != Ubx.name
  {
    hide ResolvePlan, WithChannels, DeviceNames;
    BenchChannels();
    BenchNames();
    BenchPlan();
    assert Bench.devices[0] == Twin && Bench.devices[1] == Ubx && Twin.name[2] != Ubx.name[2];
  }

  lemma BenchChannels()
    ensures WithChannels(Bench.devices, Rx) == [Twin, Ubx]
  {
    assert Bench.devices[..1] == [Twin] && Bench.devices[..1][..0] == [];
    assert WithChannels([Twin], Rx) == [Twin];
  }

  lemma BenchNames()
    ensures DeviceNames(Bench) == {"rx0", "rx1"}
  {
    assert Bench.devices[0].name == "rx0" && Bench.devices[1].name == "rx1";
    assert "rx0" in DeviceNames(Bench) && "rx1" in DeviceNames(Bench);
  }

  lemma BenchPlan()
    ensures ResolvePlan(Bench) == TwinRx
  {
    assert Bench.devices[0].family == "x310_twinrx" && Bench.devices[0].loSource.FromCompanion?;
  }

  ghost predicate RefsReady(u: Sys) {
    u.b.open && !u.b.streaming && RefsOk(Bench, u.b) && u.b.rf == NoRf && u.b.lo == NoLo
  }

  /** A session starts with nothing tuned and the oscillators as they were, but internal and unexported. */
  lemma {:induction false} SessionReady(w: World, s: Sys)
    requires !s.b.open
    ensures var u := SysRun(Bench, w, s, Session);
            RefsReady(u) && u.sim == s.sim.(src := map[], exp := map[])
  {
    BenchDevices();
    hide DeviceNames;
    var s1 := SysApply(Bench, w, s, Session[0]);
    assert s1.b.clockSet == {} && s1.b.timeSrcSet == {} && s1.b.open && !s1.b.streaming && s1.b.rf == NoRf && s1.b.lo == NoLo;
    assert s1.sim == s.sim.(src := map[], exp := map[]);
    var s2 := ReferenceStep(w, s1, OpClockSource(None, true));
    var s3 := ReferenceStep(w, s2, OpTimeSource(None, true));
    hide SysApply;
    RunThree(w, s, Session[0], Session[1], Session[2]);
  }

  lemma ReferenceStep(w: World, s: Sys, op: Op) returns (t: Sys)
    requires op == OpClockSource(None, true) || op == OpTimeSource(None, true)
    requires s.b.open && !s.b.streaming && !RefsOk(Bench, s.b)
    ensures t == SysApply(Bench, w, s, PlainOp(op)) && t.sim == s.sim
    ensures t.b.open && !t.b.streaming && t.b.rf == s.b.rf && t.b.lo == s.b.lo
    ensures op.OpClockSource? ==> DeviceNames(Bench) <= t.b.clockSet && t.b.timeSrcSet == s.b.timeSrcSet
    ensures op.OpTimeSource? ==> DeviceNames(Bench) <= t.b.timeSrcSet && t.b.clockSet == s.b.clockSet
  {
    hide DeviceNames, RefsOk;
    t := SysApply(Bench, w, s, PlainOp(op));
  }

  lemma RunThree(w: World, s: Sys, a: SysOp, b: SysOp, c: SysOp)
    ensures SysRun(Bench, w, s, [a, b, c]) == SysApply(Bench, w, SysApply(Bench, w, SysApply(Bench, w, s, a), b), c)
  {
    hide SysApply;
    var s1 := SysApply(Bench, w, s, a);
    assert [a, b, c][1..] == [b, c] && [b, c][1..] == [c] && [c][1..] == [];
    assert SysRun(Bench, w, s1, [b, c]) == SysRun(Bench, w, SysApply(Bench, w, s1, b), [c]);
  }

  lemma {:induction false} RunJoins(cfg: Cfg, w: World, s: Sys, ops: seq<SysOp>, more: seq<SysOp>)
    ensures SysRun(cfg, w, s, ops + more) == SysRun(cfg, w, SysRun(cfg, w, s, ops), more)
    decreases |ops|
  {
    hide SysApply;
    if ops == [] {
      assert ops + more == more;
    } else {
      assert (ops + more)[1..] == ops[1..] + more && (ops + more)[0] == ops[0];
      RunJoins(cfg, w, SysApply(cfg, w, s, ops[0]), ops[1..], more);
    }
  }

  // --- tunes of the bench ----------------------------------------------------------------------

  /** The phase class a bench device draws. */
  lemma BenchClasses(sim: SimLo, timed: bool)
    ensures PhysicalClass(Bench, sim, Ubx, Rx, 1000000000.0, timed) == if timed then Repeatable else RandomPhase
    ensures PhysicalClass(Bench, sim, Twin, Rx, 1000000000.0, timed)
            == if LoSourceOf(sim.src, ("rx0", Rx)) == FromCompanion then SharedLo else if timed then Repeatable else RandomPhase
  {
    BenchDevices();
    hide ResolvePlan, AnyExporter, AnyExportOn;
  }

  lemma BenchFrequency(op: SysOp)
    requires op == Timed || op == Untimed
    ensures ClampFreq([Twin, Ubx], op.f) == 1000000000.0
  {
    assert [Twin, Ubx][..1] == [Twin];
    assert MaxOfMins([Twin]) == MaxOfMins([Twin, Ubx]) == 10000000.0;
    assert MinOfMaxes([Twin]) == MinOfMaxes([Twin, Ubx]) == 6000000000.0;
  }

  /** What a tune of the bench draws. */
  lemma {:induction false} BenchDraws(w: World, s: Sys, op: SysOp)
    requires (op == Timed || op == Untimed) && s.b.open && RefsOk(Bench, s.b) && !w.pervices
    ensures TuneHappens(Bench, s, op)
    ensures var t := SysApply(Bench, w, s, op).sim;
            && ("rx0", Rx) in t.drawn && ("rx1", Rx) in t.drawn
            && t.drawn[("rx0", Rx)].cls == PhysicalClass(Bench, s.sim, Twin, Rx, 1000000000.0, op == Timed)
            && t.drawn[("rx1", Rx)].cls == PhysicalClass(Bench, s.sim, Ubx, Rx, 1000000000.0, op == Timed)
  {
    BenchDevices();
    BenchFrequency(op);
    assert TuneHappens(Bench, s, op) by { hide RefsOk; }
    OneRun(Bench, w, s, op);
    assert PhysicallyTimed(w, Twin, op.at, op.ahead) == (op == Timed) && PhysicallyTimed(w, Ubx, op.at, op.ahead) == (op == Timed);
    hide SysApply, SimAfter, TuneHappens, WithChannels, UniqueNames, ClampFreq, PhysicalClass, PhysicallyTimed, TableOk, ResolvePlan;
    DrawAfterTune(Bench, w, s, op, 0);
    DrawAfterTune(Bench, w, s, op, 1);
  }

  /** A timed tune of the bench is reported as repeatable, whatever is programmed. */
  lemma {:induction false} BenchReport(w: World, s: Sys)
    requires !w.pervices
    ensures var r := TuneReportOf(Bench, w, s, Timed); r.timed && r.cls == Repeatable && !r.bandChange
  {
    assert Timed.TuneOp? && Timed.dir == Rx;
    hide *;
    BenchDevices();
    BenchTimed(w, s);
    ReportOfTune(Bench, w, s, Timed, 1);
    WorstIsSome(Bench, w, s, Timed);
    var r, devs := TuneReportOf(Bench, w, s, Timed), WithChannels(Bench.devices, Rx);
    var i :| 0 <= i < |devs| && Reported(Bench, s, devs[i], Rx, r.center, r.timed) == r.cls;
    BenchReported(s, r.center);
    RankOfShared();
  }

  lemma RankOfShared()
    ensures Rank(Repeatable) == 2 && Rank(SharedLo) == 3
  {
  }

  lemma BenchReported(s: Sys, f: real)
    ensures Reported(Bench, s, Ubx, Rx, f, true) == Repeatable
    ensures Reported(Bench, s, Twin, Rx, f, true) == Repeatable || Reported(Bench, s, Twin, Rx, f, true) == SharedLo
  {
    BenchDevices();
    assert !Shared(Bench, TwinRx, Ubx) by { hide ResolvePlan, AnyExporter; }
    hide ResolvePlan, Shared, ShareLive;
  }

  lemma BenchTimed(w: World, s: Sys)
    requires !w.pervices
    ensures var r := TuneReportOf(Bench, w, s, Timed); r.timed && !r.bandChange
  {
    BenchDevices();
    BenchFrequency(Timed);
    hide ResolvePlan, PhaseAfterTune, UniqueNames, TableOk, DeviceNames, Shared, WithChannels, ClampFreq;
    assert forall i :: 0 <= i < |[Twin, Ubx]| ==> PhysicallyTimed(w, [Twin, Ubx][i], true, {"rx0", "rx1"});
    assert !FloorCrossed(Bench, Fc(Bench, s.sim, Rx), 1000000000.0, Rx);
    assert !BandCrossed([Twin, Ubx], Fc(Bench, s.sim, Rx), 1000000000.0);
    hide FloorCrossed, BandCrossed, PhysicallyTimed;
  }

  // --- the runs --------------------------------------------------------------------------------

  /** Tuned untimed, closed, and opened again. */
  const Reopened: seq<SysOp> := Session + [Untimed, Closing] + Session

  lemma {:induction false} ReopenedState(w: World)
    requires !w.pervices
    ensures var s := SysRun(Bench, w, AtStart(Bench, w), Reopened);
            && RefsReady(s) && LoSourceOf(s.sim.src, ("rx0", Rx)) == FromInternal
            && ("rx0", Rx) in s.sim.drawn && s.sim.drawn[("rx0", Rx)].cls == RandomPhase
  {
    hide *;
    var s0 := AtStart(Bench, w);
    StartIsClosed(w);
    SessionReady(w, s0);
    var s1 := SysRun(Bench, w, s0, Session);
    ReadyIs(s1);
    BenchDraws(w, s1, Untimed);
    BenchClasses(s1.sim, false);
    var s2 := SysApply(Bench, w, s1, Untimed);
    var s3 := CloseStep(w, s2);
    SessionReady(w, s3);
    ReadyIs(SysRun(Bench, w, s3, Session));
    ReopenedRun(w, s0);
    TunesDiffer();
  }

  lemma TunesDiffer()
    ensures Untimed != Timed && Timed.TuneOp? && Timed.dir == Rx && Timed.bump && Closing == PlainOp(OpClose)
  {
  }

  lemma StartIsClosed(w: World)
    ensures !AtStart(Bench, w).b.open
  {
    hide Constructed;
  }

  lemma ReadyIs(s: Sys)
    requires RefsReady(s)
    ensures s.b.open && !s.b.streaming && RefsOk(Bench, s.b) && s.b.rf.last == map[]
    ensures s.sim.src == map[] ==> LoSourceOf(s.sim.src, ("rx0", Rx)) == FromInternal
  {
    hide RefsOk;
  }

  lemma CloseStep(w: World, s: Sys) returns (t: Sys)
    ensures t == SysApply(Bench, w, s, Closing) && t.sim == s.sim && !t.b.open
  {
    t := SysApply(Bench, w, s, Closing);
  }

  lemma ReopenedRun(w: World, s: Sys)
    ensures SysRun(Bench, w, s, Reopened)
            == SysRun(Bench, w, SysApply(Bench, w, SysApply(Bench, w, SysRun(Bench, w, s, Session), Untimed), Closing), Session)
  {
    hide SysApply;
    RunJoins(Bench, w, s, Session + [Untimed, Closing], Session);
    RunJoins(Bench, w, s, Session, [Untimed, Closing]);
    var s1 := SysRun(Bench, w, s, Session);
    assert [Untimed, Closing][1..] == [Closing] && [Closing][1..] == [];
    assert SysRun(Bench, w, s1, [Untimed, Closing]) == SysRun(Bench, w, SysApply(Bench, w, s1, Untimed), [Closing]);
  }

  lemma SessionOk()
    ensures OpsOk(Session) && OpsOk(Reopened) && OpsOk(Session + [Companion, Timed])
  {
  }

  /** The first timed tune after the re-open: no bump, and the channels of the two devices move in some seed. */
  lemma {:induction false} FirstTuneMovesUnbumped(w: World)
    requires w.period > 0.0 && !w.pervices
    ensures var s := SysRun(Bench, w, AtStart(Bench, w), Reopened);
            var t := SysApply(Bench, w, s, Timed);
            && Reachable(Bench, w, s) && StableFirstTune(Bench, w, s, Timed) && t.b.generation == s.b.generation
            && ("rx0", Rx) in s.sim.drawn && ("rx1", Rx) in s.sim.drawn && ("rx0", Rx) in t.sim.drawn && ("rx1", Rx) in t.sim.drawn
            && !Preserved(w.period, s.sim, t.sim, Rx, ChannelRef("rx0", 0), ChannelRef("rx1", 0))
  {
    hide *;
    var s := SysRun(Bench, w, AtStart(Bench, w), Reopened);
    ReopenedState(w);
    SessionOk();
    ReachedBy(w, Reopened);
    ReadyIs(s);
    TunesDiffer();
    BenchDraws(w, s, Timed);
    BenchReport(w, s);
    IsStableFirst(w, s);
    BenchDevices();
    FirstTuneIsUnbumped(Bench, w, s, Timed, 0);
    BenchClasses(s.sim, true);
    TuneReproducesExactly(Bench, w, s, Timed, 0, 1, 0, 0);
    KeptIs(s.sim.drawn[("rx0", Rx)], s.sim.drawn[("rx1", Rx)], SysApply(Bench, w, s, Timed).sim.drawn[("rx0", Rx)], SysApply(Bench, w, s, Timed).sim.drawn[("rx1", Rx)]);
  }

  lemma KeptIs(dx: Draw, dy: Draw, ex: Draw, ey: Draw)
    ensures Kept(dx, dy, ex, ey) ==> dx.cls == ex.cls
  {
  }

  lemma IsStableFirst(w: World, s: Sys)
    requires TuneHappens(Bench, s, Timed) && s.b.rf.last == map[]
    requires var r := TuneReportOf(Bench, w, s, Timed); r.timed && r.cls == Repeatable && !r.bandChange
    ensures StableFirstTune(Bench, w, s, Timed)
  {
    hide TuneReportOf;
  }

  lemma ReachedBy(w: World, ops: seq<SysOp>)
    requires OpsOk(ops)
    ensures Reachable(Bench, w, SysRun(Bench, w, AtStart(Bench, w), ops)) && Tracks(SysRun(Bench, w, AtStart(Bench, w), ops))
  {
    hide *;
    StartTracks(w);
    RunTracks(Bench, w, AtStart(Bench, w), ops);
    ReachedNow(w, ops);
  }

  lemma StartTracks(w: World)
    ensures Tracks(AtStart(Bench, w))
  {
    assert Constructed(Bench, w).src == map[] && Constructed(Bench, w).exp == map[];
    hide Constructed;
  }

  lemma ReachedNow(w: World, ops: seq<SysOp>)
    requires OpsOk(ops)
    ensures Reachable(Bench, w, SysRun(Bench, w, AtStart(Bench, w), ops))
  {
    hide SysRun, OpsOk, AtStart;
  }

  /** With the TwinRX on its companion LO, tuned timed once and again: no bump, and its channels move
      against the UBX in some seed. */
  lemma {:induction false} MixedRetuneMoves(w: World)
    requires w.period > 0.0 && !w.pervices
    ensures var s := SysRun(Bench, w, AtStart(Bench, w), Session + [Companion, Timed]);
            var t := SysRun(Bench, w, s, [Timed]);
            && Reachable(Bench, w, s) && Rx in s.b.rf.last && t.b.generation == s.b.generation
            && ("rx0", Rx) in s.sim.drawn && ("rx1", Rx) in s.sim.drawn && ("rx0", Rx) in t.sim.drawn && ("rx1", Rx) in t.sim.drawn
            && !Preserved(w.period, s.sim, t.sim, Rx, ChannelRef("rx0", 0), ChannelRef("rx1", 0))
  {
    hide *;
    MixedState(w);
    SessionOk();
    BenchDevices();
    TunesDiffer();
    ReachedBy(w, Session + [Companion, Timed]);
    var s := SysRun(Bench, w, AtStart(Bench, w), Session + [Companion, Timed]);
    OneTune(w, s);
    MixedPhasesMove(Bench, w, s, [Timed], Rx, 0, 1, 0, 0);
  }

  lemma OneTune(w: World, s: Sys)
    requires TuneHappens(Bench, s, Timed)
    ensures SysRun(Bench, w, s, [Timed]) == SysApply(Bench, w, s, Timed) && Outside([Timed])
    ensures TuneCount(SysApply(Bench, w, s, Timed).sim, Rx) == TuneCount(s.sim, Rx) + 1
  {
    hide SysApply, SysRun, SimAfter, TuneHappens, TuneCount;
    OneRun(Bench, w, s, Timed);
    TuneCounts(Bench, w, s, Timed);
  }

  lemma CompanionStep(w: World, s: Sys) returns (t: Sys)
    requires RefsReady(s)
    ensures t == SysApply(Bench, w, s, Companion) && t.b.open && !t.b.streaming && RefsOk(Bench, t.b)
    ensures LoSourceOf(t.sim.src, ("rx0", Rx)) == FromCompanion
  {
    assert Bench.devices[0] == Twin && 0 in Channels(Bench.devices[0], Rx);
    assert Configured(Bench, Rx, ChannelRef("rx0", 0)) && CanImport(Bench, "rx0");
    hide DeviceNames, Configured, CanImport;
    t := SysApply(Bench, w, s, Companion);
  }

  lemma TuneKeepsRefs(w: World, s: Sys)
    requires s.b.open && !s.b.streaming && RefsOk(Bench, s.b)
    ensures var t := SysApply(Bench, w, s, Timed).b; t.open && !t.streaming && RefsOk(Bench, t)
  {
    hide DeviceNames, TuneResult, SimAfter;
  }

  lemma MixedRun(w: World, s: Sys)
    ensures SysRun(Bench, w, s, Session + [Companion, Timed])
            == SysApply(Bench, w, SysApply(Bench, w, SysRun(Bench, w, s, Session), Companion), Timed)
  {
    hide SysApply;
    RunJoins(Bench, w, s, Session, [Companion, Timed]);
    var s1 := SysRun(Bench, w, s, Session);
    assert [Companion, Timed][1..] == [Timed] && [Timed][1..] == [];
    assert SysRun(Bench, w, s1, [Companion, Timed]) == SysRun(Bench, w, SysApply(Bench, w, s1, Companion), [Timed]);
  }

  lemma {:induction false} MixedState(w: World)
    requires !w.pervices
    ensures var s := SysRun(Bench, w, AtStart(Bench, w), Session + [Companion, Timed]);
            && TuneHappens(Bench, s, Timed) && Rx in s.b.rf.last && SysApply(Bench, w, s, Timed).b.generation == s.b.generation
            && ClassOf(s.sim, Rx, Twin).SharedLo? && !ClassOf(s.sim, Rx, Ubx).SharedLo?
  {
    var s0 := AtStart(Bench, w);
    assert !s0.b.open by { hide Constructed; }
    SessionReady(w, s0);
    var s1 := SysRun(Bench, w, s0, Session);
    hide SysRun;
    var s2 := CompanionStep(w, s1);
    BenchDraws(w, s2, Timed);
    BenchClasses(s2.sim, true);
    BenchReport(w, s2);
    TuneRecords(Bench, w, s2, Timed);
    var s := SysApply(Bench, w, s2, Timed);
    assert s.b.open && !s.b.streaming && RefsOk(Bench, s.b) by { TuneKeepsRefs(w, s2); }
    BenchDraws(w, s, Timed);
    BenchReport(w, s);
    TuneRecords(Bench, w, s, Timed);
    assert Timed.dir == Rx;
    hide SysApply, AtStart, PhysicalClass, TuneReportOf, TuneHappens;
    MixedRun(w, s0);
  }
}
