/** What the phase order and the coherence generation promise over whole runs of a backend. */
module Coherence {
  import opened Results
  import opened LoPlans
  import opened Backends

  // --- the phase order -------------------------------------------------------------------------

  /** Holds in every reachable state: nothing is set before the first open; streaming means open,
      references set on every device and, where alignment is required, time set on every device. */
  ghost predicate Inv(cfg: Cfg, b: Backend) {
    && (b.open ==> b.everOpened)
    && (!b.everOpened ==> b.lo == NoLo && b.rf.last == map[] && !b.tuned)
    && (b.streaming ==> b.open && RefsOk(cfg, b) && (TimeRequired(cfg) ==> TimeOk(cfg, b)))
  }

  lemma {:induction false} ApplyKeepsInv(cfg: Cfg, b: Backend, op: Op)
    requires Inv(cfg, b)
    ensures Inv(cfg, Apply(cfg, b, op))
  {
    if op.OpSetRate? || op.OpTune? || op.OpLoSource? || op.OpLoExport? || op.OpIntDelay? {
      RfKeepsInv(cfg, b, op);
    } else if op.OpClockSource? || op.OpTimeSource? || op.OpMasterClock? || op.OpTimeLoad? || op.OpInvalidateTime? {
      ReferenceKeepsInv(cfg, b, op);
    } else {
      hide DeviceNames, SetRate, Tune, SetLoSource, SetLoExport, SetIntDelay, SetClock, SetTimeSrc, DropTime, LoadTimes, Forget;
    }
  }

  lemma RfKeepsInv(cfg: Cfg, b: Backend, op: Op)
    requires Inv(cfg, b) && (op.OpSetRate? || op.OpTune? || op.OpLoSource? || op.OpLoExport? || op.OpIntDelay?)
    ensures Inv(cfg, Apply(cfg, b, op))
  {
    hide DeviceNames, Report, NeedsBump, RateMoved;
  }

  lemma ReferenceKeepsInv(cfg: Cfg, b: Backend, op: Op)
    requires Inv(cfg, b) && (op.OpClockSource? || op.OpTimeSource? || op.OpMasterClock? || op.OpTimeLoad? || op.OpInvalidateTime?)
    ensures Inv(cfg, Apply(cfg, b, op))
  {
    hide DeviceNames, KnownTarget, Targets;
  }

  /** Streaming is safe in every run from construction. */
  lemma {:induction false} StreamingIsSafe(cfg: Cfg, ops: seq<Op>)
    ensures var b := Run(cfg, Fresh, ops);
            b.streaming ==> b.open && RefsOk(cfg, b) && (TimeRequired(cfg) ==> TimeOk(cfg, b))
  {
    RunKeepsInv(cfg, Fresh, ops);
  }

  lemma {:induction false} RunKeepsInv(cfg: Cfg, b: Backend, ops: seq<Op>)
    requires Inv(cfg, b)
    ensures Inv(cfg, Run(cfg, b, ops))
    decreases |ops|
  {
    if ops != [] {
      ApplyKeepsInv(cfg, b, ops[0]);
      RunKeepsInv(cfg, Apply(cfg, b, ops[0]), ops[1..]);
    }
  }

  /** A clock source, time source or master clock change that gets past its argument checks. */
  predicate ReferenceChange(cfg: Cfg, op: Op) {
    match op
    case OpClockSource(t, _) => KnownTarget(cfg, t)
    case OpTimeSource(t, _) => KnownTarget(cfg, t)
    case OpMasterClock(t, hz, _) => KnownTarget(cfg, t) && hz > 0.0
    case _ => false
  }

  /** From TIME_SET or later a reference change lands exactly in REFS_SET, with exactly one bump, even
      when the device then refuses the change. */
  lemma {:induction false} ReferenceChangeDropsTime(cfg: Cfg, b: Backend, op: Op)
    requires Inv(cfg, b) && ReferenceChange(cfg, op) && AtLeast(cfg, b, TimeSet)
    ensures PhaseOf(cfg, Apply(cfg, b, op)) == RefsSet
    ensures Apply(cfg, b, op).generation == b.generation + 1
    ensures Apply(cfg, b, op).timeSet == {} && !Apply(cfg, b, op).tuned
  {
    var b' := Apply(cfg, b, op);
    assert RefsOk(cfg, b);
    assert RefsOk(cfg, b');
    assert cfg.devices != [] ==> cfg.devices[0].name in DeviceNames(cfg);
  }

  /** A reference change forgets every loaded time exactly when the phase had reached TIME_SET or no
      time was loaded: the times of a partly loaded system survive it. */
  lemma {:induction false} ReferenceChangeForgetsTimeExactly(cfg: Cfg, b: Backend, op: Op)
    requires Inv(cfg, b) && ReferenceChange(cfg, op) && b.open
    ensures Apply(cfg, b, op).timeSet == {} <==> AtLeast(cfg, b, TimeSet) || b.timeSet == {}
  {
  }

  /** So a system can reach TIME_SET with one device's time loaded before its clock was changed, and
      no bump for the change. */
  lemma {:induction false} PartialLoadSurvivesClockChange(cfg: Cfg, b: Backend, first: string, second: string)
    requires Inv(cfg, b) && b.syncDepth <= 0 && PhaseOf(cfg, b) == RefsSet && b.timeSet == {}
    requires DeviceNames(cfg) == {first, second} && first != second && cfg.devices != []
    ensures var loaded := Apply(cfg, b, OpTimeLoad(Some([first]), true));
            var changed := Apply(cfg, loaded, OpClockSource(None, true));
            var done := Apply(cfg, changed, OpTimeLoad(Some([second]), true));
            && changed.generation == loaded.generation
            && first in changed.timeSet
            && PhaseOf(cfg, done) == TimeSet
  {
    var loaded := Apply(cfg, b, OpTimeLoad(Some([first]), true));
    assert loaded.timeSet == {first} && second !in loaded.timeSet;
    assert PhaseOf(cfg, loaded) == RefsSet by { assert second in DeviceNames(cfg); }
    var changed := Apply(cfg, loaded, OpClockSource(None, true));
    assert changed.timeSet == {first};
    var done := Apply(cfg, changed, OpTimeLoad(Some([second]), true));
    assert done.timeSet == {first, second};
  }

  // --- the generation --------------------------------------------------------------------------

  /** The generation never goes back, and one operation moves it by one at most. */
  lemma {:induction false} GenerationSteps(cfg: Cfg, b: Backend, op: Op)
    ensures b.generation <= Apply(cfg, b, op).generation <= b.generation + 1
  {
    hide DropTime, Forget, Close, Open, SetRate, Tune, SetLoSource, SetLoExport, SetIntDelay, KnownTarget, SetClock, SetTimeSrc, LoadTimes, StartRx, SetCommandTimes, ClearCommandTimes;
  }

  lemma {:induction false} GenerationGrows(cfg: Cfg, b: Backend, ops: seq<Op>)
    ensures b.generation <= Run(cfg, b, ops).generation
    decreases |ops|
  {
    if ops != [] {
      GenerationSteps(cfg, b, ops[0]);
      GenerationGrows(cfg, Apply(cfg, b, ops[0]), ops[1..]);
    }
  }

  /** An operation that applies its own bump: not the opening of a sync window, no `bump=False`. */
  predicate Bumping(op: Op) {
    match op
    case OpBeginSync => false
    case OpTune(_, _, _, _, _, _, bump) => bump
    case OpIntDelay(_, _, _, _, bump) => bump
    case _ => true
  }

  /** The programmed state the relative channel phases depend on. */
  ghost predicate SameRf(b: Backend, c: Backend) {
    && (forall k :: LoSourceOf(b.lo.src, k) == LoSourceOf(c.lo.src, k))
    && (forall k :: ExportOn(b.lo.exp, k) == ExportOn(c.lo.exp, k))
    && (forall k :: DelayOf(b.lo, k) == DelayOf(c.lo, k))
  }

  /** Two rates within one part in 10^9 of the second, or of 1 when that is less. */
  predicate CloseRates(was: real, hz: real) {
    var scale := if hz > 1.0 then hz else if hz < -1.0 then -hz else 1.0;
    -scale <= 1000000000.0 * (was - hz) <= scale
  }

  lemma RateMovedExactly(was: real, hz: real)
    ensures RateMoved(was, hz) <==> !CloseRates(was, hz)
  {
  }

  /** No direction's rate moved by more than that. */
  ghost predicate RatesKept(cfg: Cfg, b: Backend, c: Backend) {
    forall dir :: CloseRates(Rate(cfg, b, dir), Rate(cfg, c, dir))
  }

  /** A time load that went through. */
  predicate LoadsTime(cfg: Cfg, b: Backend, op: Op) {
    op.OpTimeLoad? && AtLeast(cfg, b, RefsSet) && op.devs.Some? && op.hookOk
  }

  /** A tune that went through. */
  predicate Tunes(cfg: Cfg, b: Backend, op: Op) {
    op.OpTune? && TuneAllowed(cfg, b, op.f, op.result)
  }

  /** A tune that leaves relative phases alone: timed, of a stable class that is also the class of the
      previous tune, across no band edge and no LO-share floor. */
  predicate Coherent(cfg: Cfg, b: Backend, op: Op)
    requires Tunes(cfg, b, op)
  {
    var r := Report(cfg, b, op.dir, op.fOld, op.late, op.result.value);
    && r.timed && Stable(r.cls)
    && (op.dir in b.rf.last ==> b.rf.last[op.dir].cls == r.cls)
    && !op.result.value.bandChange
    && !FloorCrossed(cfg, op.fOld, r.center, op.dir)
  }

  /** What an operation that leaves the generation alone may have done. */
  ghost predicate Harmless(cfg: Cfg, b: Backend, op: Op) {
    && !LoadsTime(cfg, b, op)
    && (Tunes(cfg, b, op) ==> Coherent(cfg, b, op))
    && SameRf(b, Apply(cfg, b, op))
    && (b.tuned ==> Apply(cfg, b, op).tuned && RatesKept(cfg, b, Apply(cfg, b, op)))
  }

  lemma SetLoSourceHarmless(b: Backend, dir: Direction, ref: ChannelRef, src: LoSource, hook: Hook)
    requires b.syncDepth <= 0 && SetLoSource(b, dir, ref, src, hook).generation == b.generation
    ensures SameRf(b, SetLoSource(b, dir, ref, src, hook))
  {
  }

  lemma SetLoExportHarmless(b: Backend, dir: Direction, ref: ChannelRef, on: bool, hook: Hook)
    requires b.syncDepth <= 0 && SetLoExport(b, dir, ref, on, hook).generation == b.generation
    ensures SameRf(b, SetLoExport(b, dir, ref, on, hook))
  {
  }

  lemma SetIntDelayHarmless(b: Backend, dir: Direction, ref: ChannelRef, n: int, accepted: Option<bool>)
    requires b.syncDepth <= 0 && SetIntDelay(b, dir, ref, n, accepted, true).generation == b.generation
    ensures SameRf(b, SetIntDelay(b, dir, ref, n, accepted, true))
  {
  }

  lemma LoOpHarmless(cfg: Cfg, b: Backend, op: Op)
    requires b.syncDepth <= 0 && Bumping(op) && Apply(cfg, b, op).generation == b.generation
    requires op.OpLoSource? || op.OpLoExport? || op.OpIntDelay?
    ensures Harmless(cfg, b, op)
  {
    hide SameRf, CloseRates;
    SameRatesKept(cfg, b, Apply(cfg, b, op));
    match op
    case OpLoSource(dir, ref, src, hook) => SetLoSourceHarmless(b, dir, ref, src, hook);
    case OpLoExport(dir, ref, on, hook) => SetLoExportHarmless(b, dir, ref, on, hook);
    case OpIntDelay(dir, ref, n, accepted, bump) => SetIntDelayHarmless(b, dir, ref, n, accepted);
  }

  lemma TuneHarmless(cfg: Cfg, b: Backend, op: Op)
    requires op.OpTune? && op.bump && Apply(cfg, b, op).generation == b.generation
    ensures Harmless(cfg, b, op)
  {
    hide PhaseAfterTune, FloorCrossed, AtLeast, CloseRates;
    SameRatesKept(cfg, b, Apply(cfg, b, op));
  }

  lemma SameRatesKept(cfg: Cfg, b: Backend, c: Backend)
    requires c.rf.rate == b.rf.rate
    ensures RatesKept(cfg, b, c)
  {
  }

  /** What leaves the generation alone after a tune keeps the tune, and the rates up to the tolerance. */
  lemma {:induction false} OthersKeepRates(cfg: Cfg, b: Backend, op: Op)
    requires Inv(cfg, b) && b.tuned && Apply(cfg, b, op).generation == b.generation
    requires !op.OpLoSource? && !op.OpLoExport? && !op.OpIntDelay? && !op.OpTune?
    ensures Apply(cfg, b, op).tuned && RatesKept(cfg, b, Apply(cfg, b, op))
  {
    if op.OpSetRate? {
      RateOpKept(cfg, b, op);
    } else {
      hide AtLeast, DeviceNames, CloseRates, SetRate;
      SameRatesKept(cfg, b, Apply(cfg, b, op));
    }
  }

  lemma RateOpKept(cfg: Cfg, b: Backend, op: Op)
    requires op.OpSetRate? && b.tuned && Apply(cfg, b, op).generation == b.generation
    ensures Apply(cfg, b, op).tuned && RatesKept(cfg, b, Apply(cfg, b, op))
  {
    hide RateMoved, CloseRates;
    var b' := Apply(cfg, b, op);
    forall dir ensures CloseRates(Rate(cfg, b, dir), Rate(cfg, b', dir)) {
      RateMovedExactly(Rate(cfg, b, dir), Rate(cfg, b', dir));
      SameRate(Rate(cfg, b, dir));
    }
  }

  lemma SameRate(hz: real)
    ensures CloseRates(hz, hz)
  {
  }

  lemma SameLo(b: Backend, c: Backend)
    requires b.lo == c.lo
    ensures SameRf(b, c)
  {
  }

  lemma OthersKeepLo(cfg: Cfg, b: Backend, op: Op)
    requires Inv(cfg, b) && Apply(cfg, b, op).generation == b.generation
    requires !op.OpLoSource? && !op.OpLoExport? && !op.OpIntDelay? && !op.OpTune?
    ensures Apply(cfg, b, op).lo == b.lo
  {
    hide AtLeast, RateMoved, DeviceNames;
  }

  lemma LoadBumps(cfg: Cfg, b: Backend, op: Op)
    requires LoadsTime(cfg, b, op) && b.syncDepth <= 0
    ensures Apply(cfg, b, op).generation == b.generation + 1
  {
  }

  lemma DepthKept(cfg: Cfg, b: Backend, op: Op)
    requires Bumping(op)
    ensures Apply(cfg, b, op).syncDepth <= b.syncDepth
  {
    hide DropTime, Forget, Close, Open, SetRate, Tune, SetLoSource, SetLoExport, SetIntDelay, KnownTarget, SetClock, SetTimeSrc, LoadTimes, StartRx, SetCommandTimes, ClearCommandTimes;
  }

  lemma {:induction false} UnbumpedIsHarmless(cfg: Cfg, b: Backend, op: Op)
    requires Inv(cfg, b) && b.syncDepth <= 0 && Bumping(op)
    requires Apply(cfg, b, op).generation == b.generation
    ensures Harmless(cfg, b, op)
    ensures Apply(cfg, b, op).syncDepth <= 0
  {
    hide Apply, SameRf, LoadsTime, Inv;
    DepthKept(cfg, b, op);
    if op.OpLoSource? || op.OpLoExport? || op.OpIntDelay? {
      LoOpHarmless(cfg, b, op);
    } else if op.OpTune? {
      TuneHarmless(cfg, b, op);
    } else {
      OthersKeepLo(cfg, b, op);
      SameLo(b, Apply(cfg, b, op));
      if b.tuned {
        OthersKeepRates(cfg, b, op);
      }
      if LoadsTime(cfg, b, op) {
        LoadBumps(cfg, b, op);
      }
    }
  }

  lemma SameRfTransitive(a: Backend, b: Backend, c: Backend)
    requires SameRf(a, b) && SameRf(b, c)
    ensures SameRf(a, c)
  {
  }

  /** The generation is a sound witness. Over any operations outside sync windows and with bumping
      calls, an unchanged generation means: the same effective LO sources, LO exports and integer
      delays; no time load; every tune on the way was coherent; and after a tune each change kept the
      tune and the rates, up to one part in 10^9. */
  lemma {:induction false} GenerationIsWitness(cfg: Cfg, b: Backend, ops: seq<Op>)
    requires Inv(cfg, b) && b.syncDepth <= 0
    requires forall i :: 0 <= i < |ops| ==> Bumping(ops[i])
    requires Run(cfg, b, ops).generation == b.generation
    ensures SameRf(b, Run(cfg, b, ops)) && (b.tuned ==> Run(cfg, b, ops).tuned)
    ensures forall i :: 0 <= i < |ops| ==> Harmless(cfg, Run(cfg, b, ops[..i]), ops[i])
    decreases |ops|
  {
    if ops != [] {
      var b' := Apply(cfg, b, ops[0]);
      GenerationSteps(cfg, b, ops[0]);
      GenerationGrows(cfg, b', ops[1..]);
      UnbumpedIsHarmless(cfg, b, ops[0]);
      ApplyKeepsInv(cfg, b, ops[0]);
      GenerationIsWitness(cfg, b', ops[1..]);
      hide Apply, Harmless, SameRf;
      SameRfTransitive(b, b', Run(cfg, b', ops[1..]));
      forall i | 0 <= i < |ops| ensures Harmless(cfg, Run(cfg, b, ops[..i]), ops[i]) {
        if i == 0 {
          assert Run(cfg, b, ops[..0]) == b;
        } else {
          assert ops[..i][1..] == ops[1..][..i - 1];
          assert Run(cfg, b, ops[..i]) == Run(cfg, b', ops[1..][..i - 1]);
        }
      }
    }
  }

  /** Two states of one run from construction: equal generations witness everything above. */
  lemma {:induction false} EqualGenerationsInARun(cfg: Cfg, before: seq<Op>, between: seq<Op>)
    requires Run(cfg, Fresh, before).syncDepth <= 0
    requires forall i :: 0 <= i < |between| ==> Bumping(between[i])
    requires Run(cfg, Fresh, before + between).generation == Run(cfg, Fresh, before).generation
    ensures SameRf(Run(cfg, Fresh, before), Run(cfg, Fresh, before + between))
    ensures forall i :: 0 <= i < |between| ==>
              Harmless(cfg, Run(cfg, Run(cfg, Fresh, before), between[..i]), between[i])
  {
    RunKeepsInv(cfg, Fresh, before);
    RunAppend(cfg, Fresh, before, between);
    GenerationIsWitness(cfg, Run(cfg, Fresh, before), between);
  }
}
