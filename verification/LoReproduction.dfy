/** An unchanged coherence generation reproduces channel-to-channel LO phases. */
module LoReproduction {
  import opened HalfEven
  import opened LoPlans
  import opened Backends
  import opened Coherence
  import opened SimLos
  import opened LoPhases

  // --- phases up to whole turns ----------------------------------------------------------------

  /** Equal up to a whole number of turns. */
  ghost predicate SameAngle(period: real, x: real, y: real) {
    exists k: int :: x == y + Turns(period, k)
  }

  lemma TurnsAdd(period: real, j: int, k: int)
    ensures Turns(period, j + k) == Turns(period, j) + Turns(period, k)
    ensures Turns(period, -k) == -Turns(period, k)
  {
    assert (j + k) as real == j as real + k as real;
  }

  /** Wrapping changes no difference by more than whole turns. */
  lemma {:induction false} WrappedDifferences(period: real, x: real, y: real, x': real, y': real)
    requires period > 0.0 && x - y == x' - y'
    ensures SameAngle(period, Wrap(period, x') - Wrap(period, y'), Wrap(period, x) - Wrap(period, y))
  {
    hide Turns;
    var a, b := ((x + period / 2.0) / period).Floor, ((y + period / 2.0) / period).Floor;
    var a', b' := ((x' + period / 2.0) / period).Floor, ((y' + period / 2.0) / period).Floor;
    TurnsAdd(period, a, -b);
    TurnsAdd(period, -a', b');
    TurnsAdd(period, a - b, b' - a');
    TurnsAdd(period, 0, b);
    TurnsAdd(period, 0, a');
    assert Wrap(period, x') - Wrap(period, y') == Wrap(period, x) - Wrap(period, y) + Turns(period, a - b + (b' - a'));
  }

  /** The phase of a channel. */
  function ChannelPhase(w: World, s: SimLo, dir: Direction, ref: ChannelRef): real
    requires w.period > 0.0 && (ref.device, dir) in s.drawn
  {
    PhaseOfDraw(w, dir, ref, s.drawn[(ref.device, dir)])
  }

  // --- the state of a direction ----------------------------------------------------------------

  function ClassOf(s: SimLo, dir: Direction, d: DeviceCfg): PhaseClass {
    if (d.name, dir) in s.drawn then s.drawn[(d.name, dir)].cls else RandomPhase
  }

  /** Either all devices of the direction run from the shared LO or none does. */
  ghost predicate Unmixed(cfg: Cfg, s: SimLo, dir: Direction) {
    var devs := WithChannels(cfg.devices, dir);
    || (forall i :: 0 <= i < |devs| ==> ClassOf(s, dir, devs[i]).SharedLo?)
    || (forall i :: 0 <= i < |devs| ==> !ClassOf(s, dir, devs[i]).SharedLo?)
  }

  /** Drawn by the last common draw, at the present frequency. */
  ghost predicate DrawnInto(cfg: Cfg, s: SimLo, dir: Direction, d: DeviceCfg) {
    && (d.name, dir) in s.drawn
    && s.drawn[(d.name, dir)].f == Fc(cfg, s, dir)
    && s.drawn[(d.name, dir)].tunes == TuneCount(s, dir)
    && DrawFits(cfg, d, s.drawn[(d.name, dir)].cls)
  }

  ghost predicate DrawnTogether(cfg: Cfg, s: SimLo, dir: Direction) {
    var devs := WithChannels(cfg.devices, dir);
    forall i :: 0 <= i < |devs| ==> DrawnInto(cfg, s, dir, devs[i])
  }

  /** A stable last tune left stable draws, none worse than the class it recorded and one no better. */
  ghost predicate RecordFits(cfg: Cfg, s: Sys, dir: Direction)
    requires dir in s.b.rf.last
  {
    var devs, c := WithChannels(cfg.devices, dir), s.b.rf.last[dir].cls;
    Stable(c) ==>
      && (forall i :: 0 <= i < |devs| ==> Rank(c) <= Rank(ClassOf(s.sim, dir, devs[i])))
      && (devs != [] ==> exists i :: 0 <= i < |devs| && ClassOf(s.sim, dir, devs[i]) == c)
  }

  /** Both directions: the constructor draws every channel and every tune draws a whole direction. */
  ghost predicate Together(cfg: Cfg, s: SimLo) {
    DrawnTogether(cfg, s, Rx) && DrawnTogether(cfg, s, Tx)
  }

  ghost predicate DirOk(cfg: Cfg, s: Sys, dir: Direction) {
    dir in s.b.rf.last ==> RecordFits(cfg, s, dir)
  }

  ghost predicate SysOk(cfg: Cfg, s: Sys) {
    Tracks(s) && Inv(cfg, s.b) && Together(cfg, s.sim) && DirOk(cfg, s, Rx) && DirOk(cfg, s, Tx)
  }

  lemma {:induction false} TuneTogether(cfg: Cfg, w: World, s: Sys, op: SysOp)
    requires UniqueNames(cfg.devices) && TuneHappens(cfg, s, op)
    ensures DrawnTogether(cfg, SimAfter(cfg, w, s, op), op.dir)
  {
    assert op.TuneOp?;
    hide SimAfter, WithChannels, Fc, TuneCount, DrawCount, TuneHappens, UniqueNames, PhysicalClass, ClampFreq, DrawFits;
    var devs := WithChannels(cfg.devices, op.dir);
    var t := SimAfter(cfg, w, s, op);
    forall i | 0 <= i < |devs| ensures DrawnInto(cfg, t, op.dir, devs[i]) {
      DrawAfterTune(cfg, w, s, op, i);
      PhysicalFits(cfg, s.sim, devs[i], op.dir, ClampFreq(devs, op.f), PhysicallyTimed(w, devs[i], op.at, op.ahead));
    }
  }

  lemma {:induction false} FirstDraw(cfg: Cfg, w: World, dir: Direction, i: nat)
    requires UniqueNames(cfg.devices) && i < |WithChannels(cfg.devices, dir)|
    ensures var d := WithChannels(cfg.devices, dir)[i];
            && (d.name, dir) in Constructed(cfg, w).drawn
            && Constructed(cfg, w).drawn[(d.name, dir)]
               == Draw(PhysicalClass(cfg, Unprogrammed, d, dir, cfg.centerFreq, false), cfg.centerFreq, 0, 1)
  {
    hide *;
    WithChannelsUnique(cfg.devices, dir);
    var devs := WithChannels(cfg.devices, dir);
    DrawOfDevice(cfg, w, Unprogrammed, dir, cfg.centerFreq, 0, false, {}, devs, i);
    ConstructedHolds(cfg, w, dir, (devs[i].name, dir));
    UntimedFirst(w, devs[i], (devs[i].name, dir));
  }

  lemma ConstructedHolds(cfg: Cfg, w: World, dir: Direction, k: LoKey)
    requires k.1 == dir && k in DrawsOf(cfg, w, Unprogrammed, dir, cfg.centerFreq, 0, false, {}, WithChannels(cfg.devices, dir))
    ensures k in Constructed(cfg, w).drawn
    ensures Constructed(cfg, w).drawn[k] == DrawsOf(cfg, w, Unprogrammed, dir, cfg.centerFreq, 0, false, {}, WithChannels(cfg.devices, dir))[k]
  {
    hide DrawsOf, WithChannels;
    assert k in FirstDraws(cfg, w, dir) && k !in FirstDraws(cfg, w, if dir == Rx then Tx else Rx);
  }

  lemma UntimedFirst(w: World, d: DeviceCfg, k: LoKey)
    ensures !PhysicallyTimed(w, d, false, {}) && DrawCount(Unprogrammed, k) == 0
  {
  }

  lemma {:induction false} FirstTogether(cfg: Cfg, w: World, dir: Direction)
    requires UniqueNames(cfg.devices)
    ensures DrawnTogether(cfg, Constructed(cfg, w), dir)
  {
    assert Constructed(cfg, w).fc == map[] && Constructed(cfg, w).tunes == map[];
    hide WithChannels, UniqueNames, PhysicalClass, DrawFits, Constructed;
    var devs := WithChannels(cfg.devices, dir);
    forall i | 0 <= i < |devs| ensures DrawnInto(cfg, Constructed(cfg, w), dir, devs[i]) {
      FirstDraw(cfg, w, dir, i);
      PhysicalFits(cfg, Unprogrammed, devs[i], dir, cfg.centerFreq, false);
    }
  }

  /** What a tune leaves for a device, with the class it recorded. */
  ghost predicate DrawnBy(t: SimLo, dir: Direction, d: DeviceCfg, c: PhaseClass, reported: PhaseClass) {
    Rank(c) <= Rank(ClassOf(t, dir, d)) && (Stable(c) ==> ClassOf(t, dir, d) == reported)
  }

  lemma DrawnByTune(cfg: Cfg, w: World, s: Sys, op: SysOp, i: nat)
    requires UniqueNames(cfg.devices) && TableOk(cfg) && Tracks(s) && TuneHappens(cfg, s, op)
    requires i < |WithChannels(cfg.devices, op.dir)|
    ensures var d, r := WithChannels(cfg.devices, op.dir)[i], TuneReportOf(cfg, w, s, op);
            DrawnBy(SimAfter(cfg, w, s, op), op.dir, d, r.cls, Reported(cfg, s, d, op.dir, r.center, r.timed))
  {
    TuneDraws(cfg, w, s, op, i);
    hide SimAfter, TuneReportOf, WithChannels, Reported, Fc, TuneCount, DrawFits;
  }

  lemma {:induction false} TuneSetsDir(cfg: Cfg, w: World, s: Sys, op: SysOp)
    requires UniqueNames(cfg.devices) && TableOk(cfg) && Tracks(s) && TuneHappens(cfg, s, op)
    ensures DirOk(cfg, SysApply(cfg, w, s, op), op.dir)
  {
    var t := SysApply(cfg, w, s, op);
    var r := TuneReportOf(cfg, w, s, op);
    TuneRecords(cfg, w, s, op);
    WorstIsSome(cfg, w, s, op);
    assert t.sim == SimAfter(cfg, w, s, op);
    var devs := WithChannels(cfg.devices, op.dir);
    forall i | 0 <= i < |devs|
      ensures DrawnBy(t.sim, op.dir, devs[i], r.cls, Reported(cfg, s, devs[i], op.dir, r.center, r.timed))
    {
      hide SysApply, SimAfter, TuneReportOf, WithChannels, Reported, DrawnBy, TuneHappens, TableOk, Tracks;
      DrawnByTune(cfg, w, s, op, i);
    }
    hide SysApply, SimAfter, TuneReportOf, WithChannels, Reported, Fc, TuneCount, DrawFits, TuneHappens, TableOk, Tracks, UniqueNames, ClassOf;
    DirFromDraws(cfg, s, t, op.dir, r);
  }

  lemma DirFromDraws(cfg: Cfg, s: Sys, t: Sys, dir: Direction, r: TuneReport)
    requires dir in t.b.rf.last && t.b.rf.last[dir].cls == r.cls
    requires var devs := WithChannels(cfg.devices, dir);
             && (forall i :: 0 <= i < |devs| ==>
                   DrawnBy(t.sim, dir, devs[i], r.cls, Reported(cfg, s, devs[i], dir, r.center, r.timed)))
             && (devs != [] ==> exists i :: 0 <= i < |devs| && Reported(cfg, s, devs[i], dir, r.center, r.timed) == r.cls)
    ensures DirOk(cfg, t, dir)
  {
    hide WithChannels, Reported;
    var devs := WithChannels(cfg.devices, dir);
    if devs != [] {
      var i :| 0 <= i < |devs| && Reported(cfg, s, devs[i], dir, r.center, r.timed) == r.cls;
      assert DrawnBy(t.sim, dir, devs[i], r.cls, r.cls);
      assert Stable(r.cls) ==> ClassOf(t.sim, dir, devs[i]) == r.cls;
    }
  }

  /** Some device of the direction reports the recorded class. */
  lemma WorstIsSome(cfg: Cfg, w: World, s: Sys, op: SysOp)
    requires op.TuneOp?
    ensures var devs, r := WithChannels(cfg.devices, op.dir), TuneReportOf(cfg, w, s, op);
            devs != [] ==> exists i :: 0 <= i < |devs| && Reported(cfg, s, devs[i], op.dir, r.center, r.timed) == r.cls
  {
    hide ClampFreq, ReportedClass, ShareLive, BandCrossed, FloorCrossed, ResolvePlan, PhysicallyTimed;
    var devs, r := WithChannels(cfg.devices, op.dir), TuneReportOf(cfg, w, s, op);
    if devs != [] {
      assert Members(cfg, op.dir) == devs && cfg.devices != [];
      var cs := ReportedClasses(cfg, op.dir, r.center, r.timed, s.b.lo.src, s.b.lo.exp);
      assert r.cls == Worst(cs);
      var i :| 0 <= i < |cs| && cs[i] == r.cls;
      assert Reported(cfg, s, devs[i], op.dir, r.center, r.timed) == cs[i];
    }
  }

  // --- steps -----------------------------------------------------------------------------------

  /** The oscillators of a direction were not retuned. */
  ghost predicate SameDraws(s: SimLo, t: SimLo, dir: Direction) {
    && (dir in s.fc <==> dir in t.fc) && (dir in s.fc ==> s.fc[dir] == t.fc[dir])
    && TuneCount(s, dir) == TuneCount(t, dir)
    && (forall k: LoKey :: k.1 == dir ==> (k in s.drawn <==> k in t.drawn))
    && (forall k: LoKey :: k.1 == dir && k in s.drawn ==> s.drawn[k] == t.drawn[k])
  }

  lemma {:induction false} SameDrawsKeepDir(cfg: Cfg, s: Sys, t: Sys, dir: Direction)
    requires DirOk(cfg, s, dir) && SameDraws(s.sim, t.sim, dir)
    requires dir in t.b.rf.last ==> dir in s.b.rf.last && t.b.rf.last[dir] == s.b.rf.last[dir]
    ensures DirOk(cfg, t, dir)
  {
    if dir in t.b.rf.last {
      var devs := WithChannels(cfg.devices, dir);
      hide WithChannels, TuneCount;
      assert forall i :: 0 <= i < |devs| ==> ClassOf(t.sim, dir, devs[i]) == ClassOf(s.sim, dir, devs[i]);
      assert RecordFits(cfg, t, dir) by {
        hide ClassOf;
      }
    }
  }

  /** Whether an operation is a tune of the direction that goes through. */
  predicate Retunes(cfg: Cfg, s: Sys, op: SysOp, dir: Direction) {
    TuneHappens(cfg, s, op) && op.dir == dir
  }

  lemma {:induction false} OthersKeepDraws(cfg: Cfg, w: World, s: Sys, op: SysOp, dir: Direction)
    requires !Retunes(cfg, s, op, dir)
    ensures SameDraws(s.sim, SysApply(cfg, w, s, op).sim, dir)
  {
    hide Apply, AtLeast, Configured, CanImport, CanExport, TuneResult, SimTune;
    if TuneHappens(cfg, s, op) {
      OtherDirectionKeepsDraws(cfg, w, s.sim, op, dir);
    }
  }

  lemma OtherDirectionKeepsDraws(cfg: Cfg, w: World, s: SimLo, op: SysOp, dir: Direction)
    requires op.TuneOp? && op.dir != dir
    ensures SameDraws(s, SimTune(cfg, w, s, op.dir, op.f, op.at, op.ahead), dir)
  {
    hide ClampFreq, WithChannels, DrawsOf;
  }

  lemma PlainKeepsRecord(cfg: Cfg, b: Backend, op: Op)
    requires !op.OpTune? && !op.OpOpen?
    ensures Apply(cfg, b, op).rf.last == b.rf.last
  {
    hide DropTime, Forget, Close, SetRate, SetLoSource, SetLoExport, SetIntDelay, KnownTarget, SetClock, SetTimeSrc, LoadTimes, StartRx, SetCommandTimes, ClearCommandTimes;
  }

  lemma {:induction false} OthersKeepRecord(cfg: Cfg, w: World, s: Sys, op: SysOp, dir: Direction)
    requires !Retunes(cfg, s, op, dir) && (op.PlainOp? ==> Plain(op.op))
    ensures var t := SysApply(cfg, w, s, op);
            dir in t.b.rf.last ==> dir in s.b.rf.last && t.b.rf.last[dir] == s.b.rf.last[dir]
  {
    var o := BaseOp(cfg, w, s, op);
    if op.TuneOp? {
      if TuneHappens(cfg, s, op) {
        TuneRecords(cfg, w, s, op);
      } else {
        hide TuneResult, AtLeast;
      }
    } else if op.OpenOp? {
    } else {
      PlainKeepsRecord(cfg, s.b, o);
    }
  }

  lemma {:induction false} DirKept(cfg: Cfg, w: World, s: Sys, op: SysOp, dir: Direction)
    requires UniqueNames(cfg.devices) && TableOk(cfg) && Tracks(s) && DirOk(cfg, s, dir)
    requires op.PlainOp? ==> Plain(op.op)
    ensures DirOk(cfg, SysApply(cfg, w, s, op), dir)
  {
    if Retunes(cfg, s, op, dir) {
      TuneSetsDir(cfg, w, s, op);
    } else {
      OthersKeepDraws(cfg, w, s, op, dir);
      OthersKeepRecord(cfg, w, s, op, dir);
      hide SysApply, DirOk, SameDraws;
      SameDrawsKeepDir(cfg, s, SysApply(cfg, w, s, op), dir);
    }
  }

  lemma SameDrawsTogether(cfg: Cfg, s: SimLo, t: SimLo, dir: Direction)
    requires DrawnTogether(cfg, s, dir) && SameDraws(s, t, dir)
    ensures DrawnTogether(cfg, t, dir)
  {
    hide WithChannels, DrawFits, TuneCount;
    var devs := WithChannels(cfg.devices, dir);
    forall i | 0 <= i < |devs| ensures DrawnInto(cfg, t, dir, devs[i]) {
      assert DrawnInto(cfg, s, dir, devs[i]);
    }
  }

  lemma {:induction false} StepTogether(cfg: Cfg, w: World, s: Sys, op: SysOp, dir: Direction)
    requires UniqueNames(cfg.devices) && DrawnTogether(cfg, s.sim, dir)
    ensures DrawnTogether(cfg, SysApply(cfg, w, s, op).sim, dir)
  {
    if Retunes(cfg, s, op, dir) {
      TuneTogether(cfg, w, s, op);
    } else {
      OthersKeepDraws(cfg, w, s, op, dir);
      hide SysApply, DrawnTogether, SameDraws;
      SameDrawsTogether(cfg, s.sim, SysApply(cfg, w, s, op).sim, dir);
    }
  }

  lemma {:induction false} RunTogether(cfg: Cfg, w: World, s: Sys, ops: seq<SysOp>, dir: Direction)
    requires UniqueNames(cfg.devices) && DrawnTogether(cfg, s.sim, dir)
    ensures DrawnTogether(cfg, SysRun(cfg, w, s, ops).sim, dir)
    decreases |ops|
  {
    if ops != [] {
      StepTogether(cfg, w, s, ops[0], dir);
      hide SysApply, DrawnTogether;
      RunTogether(cfg, w, SysApply(cfg, w, s, ops[0]), ops[1..], dir);
    }
  }

  lemma {:induction false} SysOkKept(cfg: Cfg, w: World, s: Sys, op: SysOp)
    requires UniqueNames(cfg.devices) && TableOk(cfg) && SysOk(cfg, s)
    requires op.PlainOp? ==> Plain(op.op)
    ensures SysOk(cfg, SysApply(cfg, w, s, op))
  {
    TrackingKept(cfg, w, s, op);
    ApplyKeepsInv(cfg, s.b, BaseOp(cfg, w, s, op));
    DirKept(cfg, w, s, op, Rx);
    DirKept(cfg, w, s, op, Tx);
    StepTogether(cfg, w, s, op, Rx);
    StepTogether(cfg, w, s, op, Tx);
    hide BaseOp, SimAfter, Apply, Tracks, Inv, DirOk, DrawnTogether;
  }

  /** What an unbumped operation may have done to a direction that was tuned before: nothing, or a
      tune of the same stable class. */
  ghost predicate Continues(s: Sys, t: Sys, dir: Direction)
    requires dir in s.b.rf.last
  {
    && dir in t.b.rf.last
    && t.b.rf.last[dir].cls == s.b.rf.last[dir].cls
    && (SameDraws(s.sim, t.sim, dir) || Stable(s.b.rf.last[dir].cls))
  }

  lemma {:induction false} RecordStays(cfg: Cfg, w: World, s: Sys, op: SysOp, dir: Direction)
    requires SysOk(cfg, s) && dir in s.b.rf.last && !Retunes(cfg, s, op, dir)
    requires op.PlainOp? ==> Plain(op.op)
    requires SysApply(cfg, w, s, op).b.generation == s.b.generation
    ensures dir in SysApply(cfg, w, s, op).b.rf.last
  {
    hide DirOk, Tracks;
    var o := BaseOp(cfg, w, s, op);
    if op.TuneOp? {
      if TuneHappens(cfg, s, op) {
        TuneRecords(cfg, w, s, op);
      } else {
        hide TuneResult, AtLeast;
      }
    } else if op.OpenOp? {
    } else {
      PlainKeepsRecord(cfg, s.b, o);
    }
  }

  lemma {:induction false} StepContinues(cfg: Cfg, w: World, s: Sys, op: SysOp, dir: Direction)
    requires SysOk(cfg, s) && dir in s.b.rf.last
    requires (op.PlainOp? ==> Plain(op.op)) && (op.TuneOp? ==> op.bump)
    requires SysApply(cfg, w, s, op).b.generation == s.b.generation
    ensures Continues(s, SysApply(cfg, w, s, op), dir)
  {
    if Retunes(cfg, s, op, dir) {
      TuneRecords(cfg, w, s, op);
      var r := TuneReportOf(cfg, w, s, op);
      assert r.classChanged <==> s.b.rf.last[dir].cls != r.cls;
      assert !NeedsBump(r);
    } else {
      OthersKeepDraws(cfg, w, s, op, dir);
      OthersKeepRecord(cfg, w, s, op, dir);
      RecordStays(cfg, w, s, op, dir);
    }
  }

  lemma ContinuesTransitive(s: Sys, t: Sys, u: Sys, dir: Direction)
    requires dir in s.b.rf.last && Continues(s, t, dir) && Continues(t, u, dir)
    ensures Continues(s, u, dir)
  {
  }

  // --- runs ------------------------------------------------------------------------------------

  /** Calls that apply their own bumps, outside sync windows. */
  ghost predicate Outside(ops: seq<SysOp>) {
    forall i :: 0 <= i < |ops| ==>
      && (ops[i].TuneOp? ==> ops[i].bump)
      && (ops[i].PlainOp? ==> Plain(ops[i].op) && Bumping(ops[i].op))
  }

  lemma {:induction false} SysGenerationGrows(cfg: Cfg, w: World, s: Sys, ops: seq<SysOp>)
    ensures s.b.generation <= SysRun(cfg, w, s, ops).b.generation
    decreases |ops|
  {
    hide Apply, SimAfter, BaseOp;
    if ops != [] {
      GenerationSteps(cfg, s.b, BaseOp(cfg, w, s, ops[0]));
      SysGenerationGrows(cfg, w, SysApply(cfg, w, s, ops[0]), ops[1..]);
    }
  }

  lemma {:induction false} SysOkThroughout(cfg: Cfg, w: World, s: Sys, ops: seq<SysOp>)
    requires UniqueNames(cfg.devices) && TableOk(cfg) && SysOk(cfg, s) && OpsOk(ops)
    ensures SysOk(cfg, SysRun(cfg, w, s, ops))
    decreases |ops|
  {
    if ops != [] {
      assert ops[0].PlainOp? ==> Plain(ops[0].op);
      SysOkKept(cfg, w, s, ops[0]);
      assert forall i :: 0 <= i < |ops[1..]| ==> ops[1..][i] == ops[i + 1];
      assert OpsOk(ops[1..]);
      hide SysApply, SysOk;
      SysOkThroughout(cfg, w, SysApply(cfg, w, s, ops[0]), ops[1..]);
    }
  }

  lemma {:induction false} RunContinues(cfg: Cfg, w: World, s: Sys, ops: seq<SysOp>, dir: Direction)
    requires UniqueNames(cfg.devices) && TableOk(cfg) && SysOk(cfg, s) && Outside(ops) && dir in s.b.rf.last
    requires SysRun(cfg, w, s, ops).b.generation == s.b.generation
    ensures Continues(s, SysRun(cfg, w, s, ops), dir)
    decreases |ops|
  {
    if ops != [] {
      var op := ops[0];
      var t := SysApply(cfg, w, s, op);
      GenerationSteps(cfg, s.b, BaseOp(cfg, w, s, op));
      SysGenerationGrows(cfg, w, t, ops[1..]);
      SysOkKept(cfg, w, s, op);
      StepContinues(cfg, w, s, op, dir);
      assert forall i :: 0 <= i < |ops[1..]| ==> ops[1..][i] == ops[i + 1];
      hide SysApply, SysOk, Continues;
      RunContinues(cfg, w, t, ops[1..], dir);
      ContinuesTransitive(s, t, SysRun(cfg, w, t, ops[1..]), dir);
    }
  }

  // --- phases ----------------------------------------------------------------------------------

  /** Two states with the same stable recorded class and no mixed draws have the same class device by
      device. */
  lemma {:induction false} ClassesAgree(cfg: Cfg, s: Sys, t: Sys, dir: Direction, i: nat)
    requires DirOk(cfg, s, dir) && DirOk(cfg, t, dir) && dir in s.b.rf.last && dir in t.b.rf.last
    requires DrawnTogether(cfg, s.sim, dir) && DrawnTogether(cfg, t.sim, dir)
    requires s.b.rf.last[dir].cls == t.b.rf.last[dir].cls && Stable(s.b.rf.last[dir].cls)
    requires Unmixed(cfg, s.sim, dir) && Unmixed(cfg, t.sim, dir)
    requires i < |WithChannels(cfg.devices, dir)|
    ensures var d := WithChannels(cfg.devices, dir)[i];
            ClassOf(s.sim, dir, d) == ClassOf(t.sim, dir, d) && Stable(ClassOf(s.sim, dir, d))
  {
    hide WithChannels, Fc, TuneCount;
    var devs, c := WithChannels(cfg.devices, dir), s.b.rf.last[dir].cls;
    var j :| 0 <= j < |devs| && ClassOf(s.sim, dir, devs[j]) == c;
    var k :| 0 <= k < |devs| && ClassOf(t.sim, dir, devs[k]) == c;
    assert ClassOf(s.sim, dir, devs[i]).SharedLo? <==> c.SharedLo?;
    assert ClassOf(t.sim, dir, devs[i]).SharedLo? <==> c.SharedLo?;
    StableAbove(c, ClassOf(s.sim, dir, devs[i]));
    StableAbove(c, ClassOf(t.sim, dir, devs[i]));
    assert DrawnInto(cfg, s.sim, dir, devs[i]) && DrawnInto(cfg, t.sim, dir, devs[i]);
  }

  /** Raw phase difference of two channels drawn together from one class, shared or neither shared. */
  lemma {:induction false} RawDifference(w: World, dir: Direction, x: ChannelRef, y: ChannelRef, dx: Draw, dy: Draw, ex: Draw, ey: Draw)
    requires dx.cls == ex.cls && dy.cls == ey.cls && Stable(dx.cls) && Stable(dy.cls)
    requires dx.cls.SharedLo? <==> dy.cls.SharedLo?
    requires dx.tunes == dy.tunes && ex.tunes == ey.tunes
    requires Round(dx.f) == Round(ex.f) && Round(dy.f) == Round(ey.f)
    ensures RawPhase(w, dir, x, dx) - RawPhase(w, dir, y, dy) == RawPhase(w, dir, x, ex) - RawPhase(w, dir, y, ey)
  {
    hide Round;
  }

  /** Between two states with `Continues` the channel-to-channel phases are the same up to whole turns. */
  lemma {:induction false} ContinuingReproduces(cfg: Cfg, w: World, s: Sys, t: Sys, dir: Direction, i: nat, j: nat, cx: int, cy: int)
    requires w.period > 0.0
    requires DirOk(cfg, s, dir) && DirOk(cfg, t, dir) && dir in s.b.rf.last && Continues(s, t, dir)
    requires DrawnTogether(cfg, s.sim, dir) && DrawnTogether(cfg, t.sim, dir)
    requires Unmixed(cfg, s.sim, dir) && Unmixed(cfg, t.sim, dir)
    requires Round(Fc(cfg, s.sim, dir)) == Round(Fc(cfg, t.sim, dir))
    requires i < |WithChannels(cfg.devices, dir)| && j < |WithChannels(cfg.devices, dir)|
    ensures Reproduced(cfg, w, s.sim, t.sim, dir, ChannelRef(WithChannels(cfg.devices, dir)[i].name, cx),
                       ChannelRef(WithChannels(cfg.devices, dir)[j].name, cy))
  {
    var devs := WithChannels(cfg.devices, dir);
    var x, y := ChannelRef(devs[i].name, cx), ChannelRef(devs[j].name, cy);
    assert DrawnInto(cfg, s.sim, dir, devs[i]) && DrawnInto(cfg, s.sim, dir, devs[j]);
    assert DrawnInto(cfg, t.sim, dir, devs[i]) && DrawnInto(cfg, t.sim, dir, devs[j]);
    var dx, dy := s.sim.drawn[(x.device, dir)], s.sim.drawn[(y.device, dir)];
    var ex, ey := t.sim.drawn[(x.device, dir)], t.sim.drawn[(y.device, dir)];
    if SameDraws(s.sim, t.sim, dir) {
      assert dx == ex && dy == ey;
    } else {
      ClassesAgree(cfg, s, t, dir, i);
      ClassesAgree(cfg, s, t, dir, j);
      assert dx.cls.SharedLo? <==> dy.cls.SharedLo? by {
        assert ClassOf(s.sim, dir, devs[i]) == dx.cls && ClassOf(s.sim, dir, devs[j]) == dy.cls;
      }
      RawDifference(w, dir, x, y, dx, dy, ex, ey);
    }
    hide Round, RawPhase, Fc, WithChannels, Wrap, SameAngle;
    WrappedDifferences(w.period, RawPhase(w, dir, x, dx), RawPhase(w, dir, y, dy), RawPhase(w, dir, x, ex), RawPhase(w, dir, y, ey));
  }

  /** Two channels stand in the same phase relation in both states, up to whole turns. */
  ghost predicate Reproduced(cfg: Cfg, w: World, s: SimLo, t: SimLo, dir: Direction, x: ChannelRef, y: ChannelRef)
    requires w.period > 0.0
  {
    && (x.device, dir) in s.drawn && (y.device, dir) in s.drawn
    && (x.device, dir) in t.drawn && (y.device, dir) in t.drawn
    && SameAngle(w.period, ChannelPhase(w, t, dir, x) - ChannelPhase(w, t, dir, y),
                 ChannelPhase(w, s, dir, x) - ChannelPhase(w, s, dir, y))
  }

  /** A state some run from construction leads to. */
  ghost predicate Reachable(cfg: Cfg, w: World, s: Sys) {
    exists before :: OpsOk(before) && SysRun(cfg, w, AtStart(cfg, w), before) == s
  }

  lemma StartOk(cfg: Cfg, w: World)
    requires UniqueNames(cfg.devices)
    ensures SysOk(cfg, AtStart(cfg, w))
  {
    assert Constructed(cfg, w).src == map[] && Constructed(cfg, w).exp == map[];
    hide Constructed, DrawnTogether, UniqueNames, RecordFits;
    FirstTogether(cfg, w, Rx);
    FirstTogether(cfg, w, Tx);
  }

  lemma {:induction false} ReachableOk(cfg: Cfg, w: World, s: Sys)
    requires UniqueNames(cfg.devices) && TableOk(cfg) && Reachable(cfg, w, s)
    ensures SysOk(cfg, s)
  {
    StartOk(cfg, w);
    hide SysOk, AtStart, SysRun;
    var before :| OpsOk(before) && SysRun(cfg, w, AtStart(cfg, w), before) == s;
    SysOkThroughout(cfg, w, AtStart(cfg, w), before);
  }

  /** From any reachable state, any operations outside sync windows and with bumping calls that leave the
      generation unchanged and end on the same frequency: every channel-to-channel LO phase of a tuned
      direction is reproduced. Only the two end states must not mix shared-LO devices with others. */
  lemma {:induction false} UnchangedGenerationReproducesPhases(cfg: Cfg, w: World, s: Sys, between: seq<SysOp>, dir: Direction, i: nat, j: nat, cx: int, cy: int)
    requires UniqueNames(cfg.devices) && TableOk(cfg) && w.period > 0.0
    requires Reachable(cfg, w, s) && Outside(between) && dir in s.b.rf.last
    requires SysRun(cfg, w, s, between).b.generation == s.b.generation
    requires Unmixed(cfg, s.sim, dir) && Unmixed(cfg, SysRun(cfg, w, s, between).sim, dir)
    requires Round(Fc(cfg, s.sim, dir)) == Round(Fc(cfg, SysRun(cfg, w, s, between).sim, dir))
    requires i < |WithChannels(cfg.devices, dir)| && j < |WithChannels(cfg.devices, dir)|
    ensures Reproduced(cfg, w, s.sim, SysRun(cfg, w, s, between).sim, dir,
                       ChannelRef(WithChannels(cfg.devices, dir)[i].name, cx),
                       ChannelRef(WithChannels(cfg.devices, dir)[j].name, cy))
  {
    ReachableOk(cfg, w, s);
    assert OpsOk(between);
    hide SysRun, Reproduced, Unmixed, WithChannels, Round, Fc, Tracks, Inv, Continues, Reachable;
    SysOkThroughout(cfg, w, s, between);
    RunContinues(cfg, w, s, between, dir);
    ContinuingReproduces(cfg, w, s, SysRun(cfg, w, s, between), dir, i, j, cx, cy);
  }
}
