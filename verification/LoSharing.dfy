/** The LO-share floor and the automatic plan against the physics: what an unchanged generation says about
    which devices run from the shared LO. */
module LoSharing {
  import opened Results
  import opened HalfEven
  import opened LoPlans
  import opened Backends
  import opened Coherence
  import opened SimLos
  import opened LoPhases
  import opened LoReproduction
  import opened LoExactness

  // --- the automatic plan ----------------------------------------------------------------------

  /** A TwinRX device that takes its LO from a companion or from outside. */
  ghost predicate TwinImports(cfg: Cfg) {
    exists d :: d in cfg.devices && d.family == "x310_twinrx" && d.loSource in {FromCompanion, FromExternal}
  }

  /** A device of the N321 star that exports, and one that imports. */
  ghost predicate StarWired(cfg: Cfg) {
    && (exists d :: d in cfg.devices && d.familyShare == StarShare && d.loExport)
    && (exists d :: d in cfg.devices && d.familyShare == StarShare && d.loSource == FromExternal)
  }

  ghost predicate N310Imports(cfg: Cfg) {
    exists d :: d in cfg.devices && d.family == "n310" && d.loSource == FromExternal
  }

  /** A configured plan stands; `auto` looks for TwinRX, then the star, then the N310, and is no plan else. */
  lemma {:induction false} AutoPlanExactly(cfg: Cfg)
    ensures cfg.plan.Some? ==> ResolvePlan(cfg) == cfg.plan.value
    ensures cfg.plan.None? ==>
              && (ResolvePlan(cfg) == TwinRx <==> TwinImports(cfg))
              && (ResolvePlan(cfg) == Star <==> StarWired(cfg) && !TwinImports(cfg))
              && (ResolvePlan(cfg) == ExternalLo <==> N310Imports(cfg) && !StarWired(cfg) && !TwinImports(cfg))
              && (ResolvePlan(cfg) == NoPlan <==> !N310Imports(cfg) && !StarWired(cfg) && !TwinImports(cfg))
  {
    forall i | 0 <= i < |cfg.devices| ensures cfg.devices[i] in cfg.devices {
    }
  }

  /** Who is in which role list: a device of the plan's family exports when it can and is marked or named LO master,
      imports when its LO comes from outside or, under TwinRX, from its companion, and is outside when it does
      neither. Sharing needs an exporter, unless it is with the companion. */
  lemma {:induction false} RolesExactly(cfg: Cfg, plan: Plan, i: nat)
    requires UniqueNames(cfg.devices) && i < |cfg.devices|
    ensures var d := cfg.devices[i];
            var eligible := (plan == Star && d.caps.share == StarShare) || (plan == TwinRx && d.caps.share == TwinShare);
            var exports := eligible && d.caps.canExport && (d.loExport || (cfg.loMaster != "" && d.name == cfg.loMaster));
            var imports := eligible && (d.loSource == FromExternal || (plan == TwinRx && d.loSource == FromCompanion));
            var companion := plan == TwinRx && d.loSource == FromCompanion;
            && (d.name in Pick(cfg, plan, IsEligible, cfg.devices) <==> eligible)
            && (d.name in Pick(cfg, plan, IsExporter, cfg.devices) <==> exports)
            && (d.name in Pick(cfg, plan, IsImporter, cfg.devices) <==> imports)
            && (d.name in Pick(cfg, plan, IsOutside, cfg.devices) <==> eligible && !exports && !imports)
            && (d.name in Pick(cfg, plan, IsShared, cfg.devices)
                <==> eligible && (companion || (Pick(cfg, plan, IsExporter, cfg.devices) != [] && (exports || imports))))
  {
    hide Pick, AnyExporter;
    ExportersExist(cfg, plan);
    PickUnique(cfg, plan, IsEligible, i);
    PickUnique(cfg, plan, IsExporter, i);
    PickUnique(cfg, plan, IsImporter, i);
    PickUnique(cfg, plan, IsOutside, i);
    PickUnique(cfg, plan, IsShared, i);
  }

  /** A direction is judged by the devices with channels in it, by all when none has. */
  lemma {:induction false} MembersExactly(cfg: Cfg, dir: Direction, d: DeviceCfg)
    ensures d in Members(cfg, dir) <==> d in cfg.devices && (Channels(d, dir) != [] || forall e :: e in cfg.devices ==> Channels(e, dir) == [])
  {
    hide WithChannels, Channels;
    var m := WithChannels(cfg.devices, dir);
    if m != [] {
      assert m[0] in cfg.devices && Channels(m[0], dir) != [];
    }
    if d in cfg.devices && Channels(d, dir) != [] {
      assert d in m;
    }
  }

  // --- the floor -------------------------------------------------------------------------------

  /** A floor is crossed downwards as it is upwards. */
  lemma FloorCrossedBothWays(cfg: Cfg, f: real, g: real, dir: Direction)
    ensures FloorCrossed(cfg, f, g, dir) <==> FloorCrossed(cfg, g, f, dir)
  {
    hide Shared, ResolvePlan;
  }

  /** The physical class is the shared LO exactly where the device runs from it. */
  lemma SharedClassIs(cfg: Cfg, s: SimLo, d: DeviceCfg, dir: Direction, f: real, timed: bool)
    ensures PhysicalClass(cfg, s, d, dir, f, timed).SharedLo? <==> RunsShared(cfg, s, d, dir, f)
  {
    hide Active, ResolvePlan;
  }

  /** With the star programmed on every sharing device, a retune crosses the floor exactly when some device of
      the direction starts or stops running from the shared LO. */
  lemma {:induction false} FloorCrossedIsPhysical(cfg: Cfg, s: SimLo, f: real, g: real, dir: Direction)
    requires ResolvePlan(cfg).Star? && f > 0.0 && g > 0.0
    requires forall d :: d in cfg.devices && Shared(cfg, Star, d) ==> Active(cfg, Star, s, d, dir) && !d.caps.share.IntraDevice?
    ensures FloorCrossed(cfg, f, g, dir)
            <==> exists d :: d in cfg.devices && Channels(d, dir) != [] && RunsShared(cfg, s, d, dir, f) != RunsShared(cfg, s, d, dir, g)
  {
    forall d | d in cfg.devices
      ensures RunsShared(cfg, s, d, dir, f) != RunsShared(cfg, s, d, dir, g)
              <==> Shared(cfg, Star, d) && (f >= d.caps.shareMinHz) != (g >= d.caps.shareMinHz)
    {
      ActiveIsShared(cfg, s, d, dir);
      hide Active, Shared, ResolvePlan;
    }
    hide Active, Shared, ResolvePlan, RunsShared;
  }

  /** Under TwinRX a floor counts as well, although no device stops sharing at it. */
  lemma {:induction false} TwinFloorIsConservative(cfg: Cfg, s: SimLo, f: real, g: real, dir: Direction)
    requires ResolvePlan(cfg).TwinRx?
    ensures FloorCrossed(cfg, f, g, dir)
            <==> exists d :: d in cfg.devices && Shared(cfg, TwinRx, d) && Channels(d, dir) != [] && d.caps.shareMinHz > 0.0
                             && (f < d.caps.shareMinHz <= g || g < d.caps.shareMinHz <= f)
    ensures forall d :: d in cfg.devices ==> (RunsShared(cfg, s, d, dir, f) <==> RunsShared(cfg, s, d, dir, g))
  {
    hide Active, Shared, ResolvePlan;
    forall i | 0 <= i < |cfg.devices| ensures cfg.devices[i] in cfg.devices {
    }
  }

  lemma ActiveIsShared(cfg: Cfg, s: SimLo, d: DeviceCfg, dir: Direction)
    ensures Active(cfg, Star, s, d, dir) ==> Shared(cfg, Star, d)
    ensures Shared(cfg, Star, d) ==> d.caps.share.StarShare?
  {
    hide AnyExporter, AnyExportOn;
  }

  // --- sharing over tunes ----------------------------------------------------------------------

  /** The same effective LO sources and exports. */
  ghost predicate SameSources(s: SimLo, t: SimLo) {
    && (forall k :: LoSourceOf(s.src, k) == LoSourceOf(t.src, k))
    && (forall k :: ExportOn(s.exp, k) == ExportOn(t.exp, k))
  }

  lemma SharingBySources(cfg: Cfg, s: SimLo, t: SimLo, d: DeviceCfg, dir: Direction, f: real)
    requires SameSources(s, t)
    ensures RunsShared(cfg, s, d, dir, f) <==> RunsShared(cfg, t, d, dir, f)
  {
    hide Shared, ResolvePlan, Exporter;
    var plan := ResolvePlan(cfg);
    assert AnyExportOn(cfg, plan, s.exp, dir) == AnyExportOn(cfg, plan, t.exp, dir);
  }

  /** A frequency some tune of the direction reached: the devices' common range may lie below zero. */
  predicate TunedAt(cfg: Cfg, dir: Direction, f: real) {
    var devs := WithChannels(cfg.devices, dir);
    devs != [] ==> if MinOfMaxes(devs) > 0.0 then f > 0.0 else f == MinOfMaxes(devs)
  }

  lemma ClampIsTunedAt(cfg: Cfg, dir: Direction, f: real)
    requires f > 0.0
    ensures TunedAt(cfg, dir, ClampFreq(WithChannels(cfg.devices, dir), f))
  {
    hide WithChannels, MaxOfMins, MinOfMaxes;
  }

  /** Between two frequencies of a direction on the same side of every floor, sharing is the same. */
  lemma {:induction false} SameSideSharing(cfg: Cfg, s: SimLo, i: nat, dir: Direction, f: real, g: real)
    requires i < |WithChannels(cfg.devices, dir)| && TunedAt(cfg, dir, f) && TunedAt(cfg, dir, g) && !FloorCrossed(cfg, f, g, dir)
    ensures var d := WithChannels(cfg.devices, dir)[i]; RunsShared(cfg, s, d, dir, f) <==> RunsShared(cfg, s, d, dir, g)
  {
    hide WithChannels, ResolvePlan, Exporter, MinOfMaxes, AnyExportOn, Shared;
    var d := WithChannels(cfg.devices, dir)[i];
    var k :| 0 <= k < |cfg.devices| && cfg.devices[k] == d;
    var plan := ResolvePlan(cfg);
    assert Active(cfg, plan, s, d, dir) ==> Shared(cfg, plan, d);
    hide Active;
  }

  /** The draw of a device says whether it runs from the shared LO now. */
  ghost predicate Tells(cfg: Cfg, s: SimLo, dir: Direction, d: DeviceCfg) {
    ClassOf(s, dir, d).SharedLo? <==> RunsShared(cfg, s, d, dir, Fc(cfg, s, dir))
  }

  ghost predicate UpToDate(cfg: Cfg, s: SimLo, dir: Direction) {
    var devs := WithChannels(cfg.devices, dir);
    && TunedAt(cfg, dir, Fc(cfg, s, dir))
    && forall i :: 0 <= i < |devs| ==> Tells(cfg, s, dir, devs[i])
  }

  /** A tune brings them up to date. */
  lemma {:induction false} TuneUpdates(cfg: Cfg, w: World, s: Sys, op: SysOp)
    requires UniqueNames(cfg.devices) && TuneHappens(cfg, s, op)
    ensures UpToDate(cfg, SimAfter(cfg, w, s, op), op.dir) && SameSources(s.sim, SimAfter(cfg, w, s, op))
    ensures Fc(cfg, SimAfter(cfg, w, s, op), op.dir) == ClampFreq(WithChannels(cfg.devices, op.dir), op.f)
  {
    HappensIs(cfg, w, s, op);
    var t, dir, devs := SimAfter(cfg, w, s, op), op.dir, WithChannels(cfg.devices, op.dir);
    hide *;
    ClampIsTunedAt(cfg, dir, op.f);
    SameSourcesIs(s.sim, t);
    forall i | 0 <= i < |devs| ensures Tells(cfg, t, dir, devs[i])
    {
      DrawAfterTune(cfg, w, s, op, i);
      SharedClassIs(cfg, s.sim, devs[i], dir, ClampFreq(devs, op.f), PhysicallyTimed(w, devs[i], op.at, op.ahead));
      SharingBySources(cfg, s.sim, t, devs[i], dir, ClampFreq(devs, op.f));
      TellsIs(cfg, t, dir, devs[i]);
    }
    UpdatedIs(cfg, t, dir);
  }

  lemma HappensIs(cfg: Cfg, w: World, s: Sys, op: SysOp)
    requires TuneHappens(cfg, s, op)
    ensures op.TuneOp? && op.f > 0.0
    ensures var t := SimAfter(cfg, w, s, op);
            t.src == s.sim.src && t.exp == s.sim.exp && Fc(cfg, t, op.dir) == ClampFreq(WithChannels(cfg.devices, op.dir), op.f)
  {
    hide AtLeast, DrawsOf, WithChannels, ClampFreq;
  }

  lemma SameSourcesIs(s: SimLo, t: SimLo)
    requires t.src == s.src && t.exp == s.exp
    ensures SameSources(s, t)
  {
  }

  lemma TellsIs(cfg: Cfg, t: SimLo, dir: Direction, d: DeviceCfg)
    requires (d.name, dir) in t.drawn
    requires t.drawn[(d.name, dir)].cls.SharedLo? <==> RunsShared(cfg, t, d, dir, Fc(cfg, t, dir))
    ensures Tells(cfg, t, dir, d)
  {
    hide RunsShared, Fc;
  }

  lemma UpdatedIs(cfg: Cfg, t: SimLo, dir: Direction)
    requires TunedAt(cfg, dir, Fc(cfg, t, dir))
    requires var devs := WithChannels(cfg.devices, dir);
             forall i :: 0 <= i < |devs| ==> Tells(cfg, t, dir, devs[i])
    ensures UpToDate(cfg, t, dir)
  {
  }

  // --- steps and runs --------------------------------------------------------------------------

  /** Between two states of a direction: the same devices run from the shared LO. */
  ghost predicate SameSharing(cfg: Cfg, s: SimLo, t: SimLo, dir: Direction) {
    var devs := WithChannels(cfg.devices, dir);
    forall i :: 0 <= i < |devs| ==> (ClassOf(s, dir, devs[i]).SharedLo? <==> ClassOf(t, dir, devs[i]).SharedLo?)
  }

  /** What the steps keep: tracking, the phase order, and no sync window. */
  ghost predicate Settled(cfg: Cfg, s: Sys) {
    Tracks(s) && Inv(cfg, s.b) && s.b.syncDepth <= 0
  }

  ghost predicate Counted(op: SysOp) {
    (op.TuneOp? ==> op.bump) && (op.PlainOp? ==> Plain(op.op) && Bumping(op.op))
  }

  lemma {:induction false} StepSettled(cfg: Cfg, w: World, s: Sys, op: SysOp)
    requires Settled(cfg, s) && Counted(op)
    ensures Settled(cfg, SysApply(cfg, w, s, op))
  {
    TrackingKept(cfg, w, s, op);
    ApplyKeepsInv(cfg, s.b, BaseOp(cfg, w, s, op));
    BaseIsBumping(cfg, w, s, op);
    DepthKept(cfg, s.b, BaseOp(cfg, w, s, op));
    hide Tracks, Inv, Apply, SimAfter, BaseOp;
  }

  lemma BaseIsBumping(cfg: Cfg, w: World, s: Sys, op: SysOp)
    requires Counted(op)
    ensures Bumping(BaseOp(cfg, w, s, op))
  {
    hide TuneResult, Configured, CanImport, CanExport;
  }

  /** An unbumped step leaves the effective LO sources and exports. */
  lemma {:induction false} StepSameSources(cfg: Cfg, w: World, s: Sys, op: SysOp)
    requires Settled(cfg, s) && Counted(op) && SysApply(cfg, w, s, op).b.generation == s.b.generation
    ensures SameSources(s.sim, SysApply(cfg, w, s, op).sim)
  {
    var o, t := BaseOp(cfg, w, s, op), SysApply(cfg, w, s, op);
    assert t.b == Apply(cfg, s.b, o) by { hide Apply, SimAfter, BaseOp; }
    hide *;
    StepSettled(cfg, w, s, op);
    SettledIs(cfg, s);
    SettledIs(cfg, t);
    BaseIsBumping(cfg, w, s, op);
    UnbumpedIsHarmless(cfg, s.b, o);
    HarmlessIs(cfg, s.b, o);
    SourcesTracked(s, t);
  }

  lemma SettledIs(cfg: Cfg, s: Sys)
    requires Settled(cfg, s)
    ensures Tracks(s) && Inv(cfg, s.b) && s.b.syncDepth <= 0
  {
    hide Tracks, Inv;
  }

  lemma HarmlessIs(cfg: Cfg, b: Backend, op: Op)
    requires Harmless(cfg, b, op)
    ensures SameRf(b, Apply(cfg, b, op))
  {
    hide SameRf, Apply, LoadsTime, Tunes, Coherent, RatesKept;
  }

  lemma SourcesTracked(s: Sys, t: Sys)
    requires Tracks(s) && Tracks(t) && SameRf(s.b, t.b)
    ensures SameSources(s.sim, t.sim)
  {
    forall k ensures LoSourceOf(s.sim.src, k) == LoSourceOf(t.sim.src, k) && ExportOn(s.sim.exp, k) == ExportOn(t.sim.exp, k) {
      assert LoSourceOf(s.b.lo.src, k) == LoSourceOf(t.b.lo.src, k) && ExportOn(s.b.lo.exp, k) == ExportOn(t.b.lo.exp, k);
    }
  }

  /** An unbumped step keeps who shares, and the draws up to date. */
  lemma {:induction false} StepSameSharing(cfg: Cfg, w: World, s: Sys, op: SysOp, dir: Direction)
    requires UniqueNames(cfg.devices) && Settled(cfg, s) && Counted(op) && UpToDate(cfg, s.sim, dir)
    requires SysApply(cfg, w, s, op).b.generation == s.b.generation
    ensures UpToDate(cfg, SysApply(cfg, w, s, op).sim, dir) && SameSharing(cfg, s.sim, SysApply(cfg, w, s, op).sim, dir)
  {
    hide *;
    var t := SysApply(cfg, w, s, op).sim;
    OneRun(cfg, w, s, op);
    StepSameSources(cfg, w, s, op);
    if Retunes(cfg, s, op, dir) {
      RetuneIs(cfg, s, op, dir);
      TuneUpdates(cfg, w, s, op);
      NoFloorCrossed(cfg, w, s, op);
      RetunedSharing(cfg, s.sim, t, dir);
    } else {
      OthersKeepDraws(cfg, w, s, op, dir);
      UntunedSharing(cfg, s.sim, t, dir);
    }
  }

  lemma {:induction false} NoFloorCrossed(cfg: Cfg, w: World, s: Sys, op: SysOp)
    requires TuneHappens(cfg, s, op) && Counted(op) && SysApply(cfg, w, s, op).b.generation == s.b.generation
    ensures op.TuneOp? && !FloorCrossed(cfg, Fc(cfg, s.sim, op.dir), ClampFreq(WithChannels(cfg.devices, op.dir), op.f), op.dir)
  {
    TuneRecords(cfg, w, s, op);
    hide SysApply, FloorCrossed, PhaseAfterTune, ClampFreq, WithChannels, BandCrossed, AtLeast, PhysicallyTimed, Fc;
  }

  lemma {:induction false} RetunedSharing(cfg: Cfg, s: SimLo, t: SimLo, dir: Direction)
    requires UpToDate(cfg, s, dir) && UpToDate(cfg, t, dir) && SameSources(s, t) && !FloorCrossed(cfg, Fc(cfg, s, dir), Fc(cfg, t, dir), dir)
    ensures SameSharing(cfg, s, t, dir)
  {
    hide RunsShared, FloorCrossed, TunedAt, SameSources, ClassOf, Fc;
    var devs := WithChannels(cfg.devices, dir);
    forall i | 0 <= i < |devs| ensures ClassOf(s, dir, devs[i]).SharedLo? <==> ClassOf(t, dir, devs[i]).SharedLo? {
      assert Tells(cfg, s, dir, devs[i]) && Tells(cfg, t, dir, devs[i]);
      SameSideSharing(cfg, s, i, dir, Fc(cfg, s, dir), Fc(cfg, t, dir));
      SharingBySources(cfg, s, t, devs[i], dir, Fc(cfg, t, dir));
    }
  }

  lemma {:induction false} UntunedSharing(cfg: Cfg, s: SimLo, t: SimLo, dir: Direction)
    requires UpToDate(cfg, s, dir) && SameDraws(s, t, dir) && SameSources(s, t)
    ensures UpToDate(cfg, t, dir) && SameSharing(cfg, s, t, dir)
  {
    hide RunsShared, TunedAt, SameSources, TuneCount;
    var devs := WithChannels(cfg.devices, dir);
    assert Fc(cfg, s, dir) == Fc(cfg, t, dir);
    forall i | 0 <= i < |devs|
      ensures (ClassOf(s, dir, devs[i]).SharedLo? <==> ClassOf(t, dir, devs[i]).SharedLo?) && Tells(cfg, t, dir, devs[i])
    {
      assert Tells(cfg, s, dir, devs[i]);
      SharingBySources(cfg, s, t, devs[i], dir, Fc(cfg, t, dir));
    }
  }

  lemma SharingTransitive(cfg: Cfg, s: SimLo, t: SimLo, u: SimLo, dir: Direction)
    requires SameSharing(cfg, s, t, dir) && SameSharing(cfg, t, u, dir)
    ensures SameSharing(cfg, s, u, dir)
  {
    hide ClassOf;
  }

  lemma {:induction false} RunSameSharing(cfg: Cfg, w: World, s: Sys, ops: seq<SysOp>, dir: Direction)
    requires UniqueNames(cfg.devices) && Settled(cfg, s) && Outside(ops) && UpToDate(cfg, s.sim, dir)
    requires SysRun(cfg, w, s, ops).b.generation == s.b.generation
    ensures SameSharing(cfg, s.sim, SysRun(cfg, w, s, ops).sim, dir)
    decreases |ops|
  {
    if ops == [] {
      hide ClassOf;
    } else {
      var op, rest := ops[0], ops[1..];
      assert Counted(op) && Outside(rest) by { assert forall i :: 0 <= i < |rest| ==> rest[i] == ops[i + 1]; }
      var t := SysApply(cfg, w, s, op);
      assert t.b == Apply(cfg, s.b, BaseOp(cfg, w, s, op)) by { hide Apply, SimAfter, BaseOp; }
      assert SysRun(cfg, w, s, ops) == SysRun(cfg, w, t, rest) by { hide SysApply; }
      hide *;
      GenerationSteps(cfg, s.b, BaseOp(cfg, w, s, op));
      SysGenerationGrows(cfg, w, t, rest);
      StepSettled(cfg, w, s, op);
      StepSameSharing(cfg, w, s, op, dir);
      RunSameSharing(cfg, w, t, rest, dir);
      SharingTransitive(cfg, s.sim, t.sim, SysRun(cfg, w, t, rest).sim, dir);
    }
  }

  lemma {:induction false} ReachableSettled(cfg: Cfg, w: World, s: Sys)
    requires Reachable(cfg, w, s)
    ensures Tracks(s) && Inv(cfg, s.b)
  {
    var before :| OpsOk(before) && SysRun(cfg, w, AtStart(cfg, w), before) == s;
    assert Constructed(cfg, w).src == map[] && Constructed(cfg, w).exp == map[] by { hide FirstDraws; }
    assert AtStart(cfg, w) == Sys(Fresh, Constructed(cfg, w));
    hide SysRun, Constructed, OpsOk;
    RunTracks(cfg, w, AtStart(cfg, w), before);
    RunInv(cfg, w, AtStart(cfg, w), before);
  }

  lemma {:induction false} RunInv(cfg: Cfg, w: World, s: Sys, ops: seq<SysOp>)
    requires Inv(cfg, s.b)
    ensures Inv(cfg, SysRun(cfg, w, s, ops).b)
    decreases |ops|
  {
    hide Inv, Apply, BaseOp, SimAfter;
    if ops != [] {
      ApplyKeepsInv(cfg, s.b, BaseOp(cfg, w, s, ops[0]));
      RunInv(cfg, w, SysApply(cfg, w, s, ops[0]), ops[1..]);
    }
  }

  /** From a tune of a reachable state, outside sync windows, over any operations with bumping calls that leave
      the generation unchanged: every device of the direction runs from the shared LO after each later tune
      exactly when it did after the first. */
  lemma {:induction false} SharingKeptBetweenTunes(cfg: Cfg, w: World, s: Sys, op: SysOp, between: seq<SysOp>, i: nat)
    requires UniqueNames(cfg.devices) && Reachable(cfg, w, s) && TuneHappens(cfg, s, op) && s.b.syncDepth <= 0
    requires i < |WithChannels(cfg.devices, op.dir)| && Outside(between)
    requires var s1 := SysApply(cfg, w, s, op); SysRun(cfg, w, s1, between).b.generation == s1.b.generation
    ensures var d, s1 := WithChannels(cfg.devices, op.dir)[i], SysApply(cfg, w, s, op);
            ClassOf(s1.sim, op.dir, d).SharedLo? <==> ClassOf(SysRun(cfg, w, s1, between).sim, op.dir, d).SharedLo?
  {
    HappensIs(cfg, w, s, op);
    hide *;
    var s1 := SysApply(cfg, w, s, op);
    ReachableSettled(cfg, w, s);
    OneRun(cfg, w, s, op);
    TuneUpdates(cfg, w, s, op);
    TunedSettled(cfg, w, s, op);
    RunSameSharing(cfg, w, s1, between, op.dir);
    SharingAt(cfg, s1.sim, SysRun(cfg, w, s1, between).sim, op.dir, i);
  }

  lemma TunedSettled(cfg: Cfg, w: World, s: Sys, op: SysOp)
    requires Tracks(s) && Inv(cfg, s.b) && s.b.syncDepth <= 0 && op.TuneOp?
    ensures Settled(cfg, SysApply(cfg, w, s, op))
  {
    TrackingKept(cfg, w, s, op);
    ApplyKeepsInv(cfg, s.b, BaseOp(cfg, w, s, op));
    TuneDepth(cfg, s.b, BaseOp(cfg, w, s, op));
    hide Tracks, Inv, Apply, SimAfter, TuneResult;
  }

  lemma TuneDepth(cfg: Cfg, b: Backend, op: Op)
    requires op.OpTune?
    ensures Apply(cfg, b, op).syncDepth == b.syncDepth
  {
    hide Tune;
  }

  lemma SharingAt(cfg: Cfg, s: SimLo, t: SimLo, dir: Direction, i: nat)
    requires SameSharing(cfg, s, t, dir) && i < |WithChannels(cfg.devices, dir)|
    ensures var d := WithChannels(cfg.devices, dir)[i]; ClassOf(s, dir, d).SharedLo? <==> ClassOf(t, dir, d).SharedLo?
  {
    hide ClassOf;
  }

  lemma {:induction false} ReachableNext(cfg: Cfg, w: World, s: Sys, op: SysOp)
    requires Reachable(cfg, w, s) && !op.PlainOp?
    ensures Reachable(cfg, w, SysApply(cfg, w, s, op))
  {
    var before :| OpsOk(before) && SysRun(cfg, w, AtStart(cfg, w), before) == s;
    var ops := before + [op];
    assert OpsOk(ops);
    hide SysApply, OpsOk, AtStart;
    RunLast(cfg, w, AtStart(cfg, w), before, op);
    assert OpsOk(ops) && SysRun(cfg, w, AtStart(cfg, w), ops) == SysApply(cfg, w, s, op);
  }

  lemma {:induction false} RunLast(cfg: Cfg, w: World, s: Sys, ops: seq<SysOp>, op: SysOp)
    ensures SysRun(cfg, w, s, ops + [op]) == SysApply(cfg, w, SysRun(cfg, w, s, ops), op)
    decreases |ops|
  {
    hide SysApply;
    if ops == [] {
      assert ops + [op] == [op] && [op][1..] == [];
    } else {
      assert (ops + [op])[1..] == ops[1..] + [op] && (ops + [op])[0] == ops[0];
      RunLast(cfg, w, SysApply(cfg, w, s, ops[0]), ops[1..], op);
    }
  }

  /** Two channels of one direction from a tune on, with an unchanged generation: their relation is the same in
      every seed exactly when the direction was not tuned again, or both or neither run from the shared LO and,
      in the latter case, both phases are fixed or the rounded frequency is the same. */
  lemma {:induction false} PairAfterTuneReproducedExactly(cfg: Cfg, w: World, s: Sys, op: SysOp, between: seq<SysOp>, i: nat, j: nat, cx: int, cy: int)
    requires UniqueNames(cfg.devices) && TableOk(cfg) && w.period > 0.0 && Reachable(cfg, w, s) && TuneHappens(cfg, s, op) && s.b.syncDepth <= 0
    requires i < |WithChannels(cfg.devices, op.dir)| && j < |WithChannels(cfg.devices, op.dir)| && Outside(between)
    requires ChannelRef(WithChannels(cfg.devices, op.dir)[i].name, cx) != ChannelRef(WithChannels(cfg.devices, op.dir)[j].name, cy)
    requires var s1 := SysApply(cfg, w, s, op); SysRun(cfg, w, s1, between).b.generation == s1.b.generation
    ensures var s1, a, b := SysApply(cfg, w, s, op), WithChannels(cfg.devices, op.dir)[i], WithChannels(cfg.devices, op.dir)[j];
            var t := SysRun(cfg, w, s1, between);
            && (a.name, op.dir) in s1.sim.drawn && (b.name, op.dir) in s1.sim.drawn && (a.name, op.dir) in t.sim.drawn && (b.name, op.dir) in t.sim.drawn
            && (Preserved(w.period, s1.sim, t.sim, op.dir, ChannelRef(a.name, cx), ChannelRef(b.name, cy))
                <==> || TuneCount(s1.sim, op.dir) == TuneCount(t.sim, op.dir)
                     || (ClassOf(s1.sim, op.dir, a).SharedLo? && ClassOf(s1.sim, op.dir, b).SharedLo?)
                     || (!ClassOf(s1.sim, op.dir, a).SharedLo? && !ClassOf(s1.sim, op.dir, b).SharedLo?
                         && ((a.caps.deterministic && b.caps.deterministic)
                             || Round(s1.sim.drawn[(a.name, op.dir)].f) == Round(t.sim.drawn[(a.name, op.dir)].f))))
  {
    HappensIs(cfg, w, s, op);
    hide *;
    var s1, devs := SysApply(cfg, w, s, op), WithChannels(cfg.devices, op.dir);
    var t := SysRun(cfg, w, s1, between);
    ReachableNext(cfg, w, s, op);
    TuneRecords(cfg, w, s, op);
    UnbumpedPairReproducedExactly(cfg, w, s1, between, op.dir, i, j, cx, cy);
    SharingKeptBetweenTunes(cfg, w, s, op, between, i);
    SharingKeptBetweenTunes(cfg, w, s, op, between, j);
    KeptBySharing(s1.sim, t.sim, op.dir, devs[i], devs[j]);
  }

  lemma KeptBySharing(s: SimLo, t: SimLo, dir: Direction, a: DeviceCfg, b: DeviceCfg)
    requires (a.name, dir) in s.drawn && (b.name, dir) in s.drawn && (a.name, dir) in t.drawn && (b.name, dir) in t.drawn
    requires (ClassOf(s, dir, a).SharedLo? <==> ClassOf(t, dir, a).SharedLo?) && (ClassOf(s, dir, b).SharedLo? <==> ClassOf(t, dir, b).SharedLo?)
    ensures KeptUnbumped(a, b, s.drawn[(a.name, dir)], s.drawn[(b.name, dir)], t.drawn[(a.name, dir)], t.drawn[(b.name, dir)])
            <==> || (ClassOf(s, dir, a).SharedLo? && ClassOf(s, dir, b).SharedLo?)
                 || (!ClassOf(s, dir, a).SharedLo? && !ClassOf(s, dir, b).SharedLo?
                     && ((a.caps.deterministic && b.caps.deterministic)
                         || Round(s.drawn[(a.name, dir)].f) == Round(t.drawn[(a.name, dir)].f)))
  {
    hide Round;
  }
}
