/** Exactly when the phase relation of two channels survives a run, whatever the seed of the random phases. */
module LoExactness {
  import opened HalfEven
  import opened LoPlans
  import opened Backends
  import opened Coherence
  import opened SimLos
  import opened LoPhases
  import opened LoReproduction

  // --- seeds -----------------------------------------------------------------------------------

  /** The seed moves phases only: it steers neither the backend nor which draws are made. */
  lemma {:induction false} SeedsDoNotSteer(cfg: Cfg, w: World, v: World, s: Sys, ops: seq<SysOp>)
    requires v.pervices == w.pervices
    ensures SysRun(cfg, v, s, ops) == SysRun(cfg, w, s, ops)
    decreases |ops|
  {
    if ops != [] {
      SeedsDoNotSteerOne(cfg, w, v, s, ops[0]);
      hide SysApply;
      SeedsDoNotSteer(cfg, w, v, SysApply(cfg, w, s, ops[0]), ops[1..]);
    }
  }

  lemma SeedsDoNotSteerOne(cfg: Cfg, w: World, v: World, s: Sys, op: SysOp)
    requires v.pervices == w.pervices
    ensures SysApply(cfg, v, s, op) == SysApply(cfg, w, s, op)
  {
    hide Apply, ClampFreq, BandCrossed, WithChannels, AtLeast, DrawsOf, Configured, CanImport, CanExport;
    if op.TuneOp? {
      var devs := WithChannels(cfg.devices, op.dir);
      assert forall i :: 0 <= i < |devs| ==> PhysicallyTimed(v, devs[i], op.at, op.ahead) == PhysicallyTimed(w, devs[i], op.at, op.ahead);
      SameDrawsInSeeds(cfg, w, v, s.sim, op.dir, ClampFreq(devs, op.f), TuneCount(s.sim, op.dir) + 1, op.at, op.ahead, devs);
      hide PhysicallyTimed;
      assert TuneResult(cfg, v, s.sim, op.dir, op.f, op.at, op.ahead) == TuneResult(cfg, w, s.sim, op.dir, op.f, op.at, op.ahead);
    }
  }

  lemma {:induction false} SameDrawsInSeeds(cfg: Cfg, w: World, v: World, s: SimLo, dir: Direction, center: real, n: nat, at: bool, ahead: set<string>, devs: seq<DeviceCfg>)
    requires v.pervices == w.pervices
    ensures DrawsOf(cfg, v, s, dir, center, n, at, ahead, devs) == DrawsOf(cfg, w, s, dir, center, n, at, ahead, devs)
  {
    hide PhysicalClass, DrawCount;
    if devs != [] {
      SameDrawsInSeeds(cfg, w, v, s, dir, center, n, at, ahead, devs[..|devs| - 1]);
    }
  }

  /** Draws dx, dy of two channels before and ex, ey after: the same relation, up to whole turns. */
  ghost predicate SameRelation(v: World, dir: Direction, x: ChannelRef, y: ChannelRef, dx: Draw, dy: Draw, ex: Draw, ey: Draw)
    requires v.period > 0.0
  {
    SameAngle(v.period, PhaseOfDraw(v, dir, x, ex) - PhaseOfDraw(v, dir, y, ey), PhaseOfDraw(v, dir, x, dx) - PhaseOfDraw(v, dir, y, dy))
  }

  ghost predicate InEverySeed(period: real, dir: Direction, x: ChannelRef, y: ChannelRef, dx: Draw, dy: Draw, ex: Draw, ey: Draw)
    requires period > 0.0
  {
    forall v: World :: v.period == period ==> SameRelation(v, dir, x, y, dx, dy, ex, ey)
  }

  // --- angles ----------------------------------------------------------------------------------

  lemma {:induction false} AnglesShift(period: real, x: real, y: real, j: int, k: int)
    requires SameAngle(period, x, y)
    ensures SameAngle(period, x + Turns(period, j), y + Turns(period, k))
  {
    hide Turns;
    var n: int :| x == y + Turns(period, n);
    TurnsAdd(period, n, j);
    TurnsAdd(period, n + j, -k);
    TurnsAdd(period, 0, k);
    assert x + Turns(period, j) == y + Turns(period, k) + Turns(period, n + j + -k);
  }

  /** Wrapping does not matter for a relation. */
  lemma {:induction false} RelationIsRaw(v: World, dir: Direction, x: ChannelRef, y: ChannelRef, dx: Draw, dy: Draw, ex: Draw, ey: Draw)
    requires v.period > 0.0
    ensures SameRelation(v, dir, x, y, dx, dy, ex, ey)
            <==> SameAngle(v.period, RawPhase(v, dir, x, ex) - RawPhase(v, dir, y, ey), RawPhase(v, dir, x, dx) - RawPhase(v, dir, y, dy))
  {
    hide RawPhase, SameAngle;
    var j := WrapTurns(v.period, RawPhase(v, dir, x, ex), RawPhase(v, dir, y, ey));
    var k := WrapTurns(v.period, RawPhase(v, dir, x, dx), RawPhase(v, dir, y, dy));
    var a := RawPhase(v, dir, x, ex) - RawPhase(v, dir, y, ey);
    var b := RawPhase(v, dir, x, dx) - RawPhase(v, dir, y, dy);
    var a' := PhaseOfDraw(v, dir, x, ex) - PhaseOfDraw(v, dir, y, ey);
    var b' := PhaseOfDraw(v, dir, x, dx) - PhaseOfDraw(v, dir, y, dy);
    hide PhaseOfDraw, Turns;
    TurnsAdd(v.period, 0, j);
    TurnsAdd(v.period, 0, k);
    if SameAngle(v.period, a, b) {
      AnglesShift(v.period, a, b, j, k);
    }
    if SameAngle(v.period, a', b') {
      AnglesShift(v.period, a', b', -j, -k);
    }
  }

  lemma WrapTurns(period: real, x: real, y: real) returns (j: int)
    requires period > 0.0
    ensures Wrap(period, x) - Wrap(period, y) == x - y + Turns(period, j)
  {
    hide Turns;
    var a, b := ((x + period / 2.0) / period).Floor, ((y + period / 2.0) / period).Floor;
    TurnsAdd(period, b, -a);
    TurnsAdd(period, 0, a);
    j := b + -a;
  }

  lemma WholeTurns(period: real, k: int)
    requires period > 0.0
    ensures k == 0 ==> Turns(period, k) == 0.0
    ensures k >= 1 ==> Turns(period, k) >= period
    ensures k <= -1 ==> Turns(period, k) <= -period
  {
    if k >= 1 {
      assert (k - 1) as real * period >= 0.0;
      assert Turns(period, k) == (k - 1) as real * period + period;
    } else if k <= -1 {
      assert (k + 1) as real * period <= 0.0;
      assert Turns(period, k) == (k + 1) as real * period - period;
    }
  }

  /** Less than a turn, but not nothing, is no whole number of turns. */
  lemma {:induction false} PartOfATurn(period: real, x: real)
    requires period > 0.0 && -period < x < period && x != 0.0
    ensures !SameAngle(period, x, 0.0)
  {
    hide Turns;
    forall k: int ensures x != 0.0 + Turns(period, k) {
      WholeTurns(period, k);
    }
  }

  /** Turning both relations around. */
  lemma {:induction false} RelationIsSymmetric(v: World, dir: Direction, x: ChannelRef, y: ChannelRef, dx: Draw, dy: Draw, ex: Draw, ey: Draw)
    requires v.period > 0.0 && SameRelation(v, dir, x, y, dx, dy, ex, ey)
    ensures SameRelation(v, dir, y, x, dy, dx, ey, ex)
  {
    hide PhaseOfDraw, Turns;
    var a, b := PhaseOfDraw(v, dir, x, ex) - PhaseOfDraw(v, dir, y, ey), PhaseOfDraw(v, dir, x, dx) - PhaseOfDraw(v, dir, y, dy);
    var n: int :| a == b + Turns(v.period, n);
    TurnsAdd(v.period, 0, n);
    assert -a == -b + Turns(v.period, -n);
  }

  // --- which random streams a draw uses --------------------------------------------------------

  /** The stream a channel does not have in common with any other. */
  function OwnKey(dir: Direction, ref: ChannelRef, d: Draw): PhaseKey {
    match d.cls
    case SharedLo => PathKey(ref, dir)
    case Repeatable => RepeatableKey(ref, dir, Round(d.f))
    case Ambiguous180 => BaseKey(ref, dir, Round(d.f))
    case Deterministic => FixedKey(ref, dir)
    case RandomPhase => RandomKey(ref, dir, d.count)
  }

  /** Two draws of one channel give the same phase as far as its own streams go. */
  predicate SameStream(d: Draw, e: Draw) {
    && d.cls == e.cls
    && (d.cls.Repeatable? || d.cls.Ambiguous180? ==> Round(d.f) == Round(e.f))
    && (d.cls.Ambiguous180? || d.cls.RandomPhase? ==> d.count == e.count)
  }

  /** A seed in which exactly one random stream is not zero. */
  function OneKey(key: PhaseKey, period: real): PhaseKey -> real {
    k => if k == key then period / 4.0 else 0.0
  }

  function OnlyKey(w: World, key: PhaseKey): World {
    World(OneKey(key, w.period), k => false, w.period, w.pervices)
  }

  /** A seed in which all is zero but one bit. */
  function OnlyBit(w: World, key: PhaseKey): World {
    World(k => 0.0, k => k == key, w.period, w.pervices)
  }

  /** Only one of the four raw phases is not zero, and it is less than a turn: the relation moves. */
  lemma Moves(v: World, dir: Direction, x: ChannelRef, y: ChannelRef, dx: Draw, dy: Draw, ex: Draw, ey: Draw)
    requires v.period > 0.0 && 0.0 < RawPhase(v, dir, x, ex) < v.period
    requires RawPhase(v, dir, x, dx) == RawPhase(v, dir, y, dy) == RawPhase(v, dir, y, ey) == 0.0
    ensures !SameRelation(v, dir, x, y, dx, dy, ex, ey)
  {
    hide RawPhase, SameRelation, SameAngle;
    RelationIsRaw(v, dir, x, y, dx, dy, ex, ey);
    PartOfATurn(v.period, RawPhase(v, dir, x, ex));
  }

  /** A channel whose own streams changed moves in some seed. */
  lemma {:induction false} OtherStreamMoves(w: World, dir: Direction, x: ChannelRef, y: ChannelRef, dx: Draw, dy: Draw, ex: Draw, ey: Draw) returns (v: World)
    requires w.period > 0.0 && x != y && !SameStream(dx, ex)
    ensures v.period == w.period && v.pervices == w.pervices && !SameRelation(v, dir, x, y, dx, dy, ex, ey)
  {
    hide *;
    if OwnKey(dir, x, dx) != OwnKey(dir, x, ex) {
      v := OnlyKey(w, OwnKey(dir, x, ex));
      InOwnKey(w, dir, x, dx, ex);
      ElsewhereZero(w, dir, x, y, ex, dy);
      ElsewhereZero(w, dir, x, y, ex, ey);
    } else {
      v := OnlyBit(w, BitKey(x, dir, ex.count));
      InOneBit(w, dir, x, dx, ex);
      ElsewhereZeroBit(w, dir, x, y, ex, dy);
      ElsewhereZeroBit(w, dir, x, y, ex, ey);
    }
    SeedIs(w, dir, x, ex);
    Moves(v, dir, x, y, dx, dy, ex, ey);
  }

  lemma SeedIs(w: World, dir: Direction, x: ChannelRef, ex: Draw)
    ensures var v := OnlyKey(w, OwnKey(dir, x, ex)); v.period == w.period && v.pervices == w.pervices
    ensures var v := OnlyBit(w, BitKey(x, dir, ex.count)); v.period == w.period && v.pervices == w.pervices
  {
  }

  lemma InOwnKey(w: World, dir: Direction, x: ChannelRef, dx: Draw, ex: Draw)
    requires OwnKey(dir, x, dx) != OwnKey(dir, x, ex)
    ensures var v := OnlyKey(w, OwnKey(dir, x, ex)); RawPhase(v, dir, x, ex) == w.period / 4.0 && RawPhase(v, dir, x, dx) == 0.0
  {
    hide Round;
  }

  lemma InOneBit(w: World, dir: Direction, x: ChannelRef, dx: Draw, ex: Draw)
    requires OwnKey(dir, x, dx) == OwnKey(dir, x, ex) && !SameStream(dx, ex)
    ensures var v := OnlyBit(w, BitKey(x, dir, ex.count)); RawPhase(v, dir, x, ex) == w.period / 2.0 && RawPhase(v, dir, x, dx) == 0.0
  {
    hide Round;
  }

  lemma ElsewhereZero(w: World, dir: Direction, x: ChannelRef, y: ChannelRef, ex: Draw, d: Draw)
    requires x != y
    ensures RawPhase(OnlyKey(w, OwnKey(dir, x, ex)), dir, y, d) == 0.0
  {
    hide Round;
  }

  lemma ElsewhereZeroBit(w: World, dir: Direction, x: ChannelRef, y: ChannelRef, ex: Draw, d: Draw)
    requires x != y
    ensures RawPhase(OnlyBit(w, BitKey(x, dir, ex.count)), dir, y, d) == 0.0
  {
    hide Round;
  }

  /** A shared LO moves against an unshared one in some seed when it is drawn anew. */
  lemma {:induction false} SharedMoves(w: World, dir: Direction, x: ChannelRef, y: ChannelRef, dx: Draw, dy: Draw, ex: Draw, ey: Draw) returns (v: World)
    requires w.period > 0.0 && dx.cls.SharedLo? && ex.cls.SharedLo? && !dy.cls.SharedLo? && !ey.cls.SharedLo? && dx.tunes != ex.tunes
    ensures v.period == w.period && v.pervices == w.pervices && !SameRelation(v, dir, x, y, dx, dy, ex, ey)
  {
    hide Round, SameRelation;
    v := OnlyKey(w, SharedKey(dir, ex.tunes));
    assert RawPhase(v, dir, x, ex) == w.period / 4.0 && RawPhase(v, dir, x, dx) == 0.0;
    assert RawPhase(v, dir, y, ey) == 0.0 && RawPhase(v, dir, y, dy) == 0.0;
    hide RawPhase;
    Moves(v, dir, x, y, dx, dy, ex, ey);
  }

  lemma SeedMoves(v: World, dir: Direction, x: ChannelRef, y: ChannelRef, dx: Draw, dy: Draw, ex: Draw, ey: Draw)
    requires v.period > 0.0 && (!SameRelation(v, dir, x, y, dx, dy, ex, ey) || !SameRelation(v, dir, y, x, dy, dx, ey, ex))
    ensures !InEverySeed(v.period, dir, x, y, dx, dy, ex, ey)
  {
    hide SameRelation;
    if SameRelation(v, dir, x, y, dx, dy, ex, ey) {
      RelationIsSymmetric(v, dir, x, y, dx, dy, ex, ey);
    }
  }

  /** Same streams, and shared parts that cancel: the same relation in every seed. */
  lemma {:induction false} SameStreamsKeep(v: World, dir: Direction, x: ChannelRef, y: ChannelRef, dx: Draw, dy: Draw, ex: Draw, ey: Draw)
    requires v.period > 0.0 && dx.tunes == dy.tunes && ex.tunes == ey.tunes && SameStream(dx, ex) && SameStream(dy, ey)
    requires dx.tunes == ex.tunes || (dx.cls.SharedLo? <==> dy.cls.SharedLo?)
    ensures SameRelation(v, dir, x, y, dx, dy, ex, ey)
  {
    hide Round;
    assert RawPhase(v, dir, x, ex) - RawPhase(v, dir, y, ey) == RawPhase(v, dir, x, dx) - RawPhase(v, dir, y, dy);
    hide RawPhase, SameAngle;
    WrappedDifferences(v.period, RawPhase(v, dir, x, dx), RawPhase(v, dir, y, dy), RawPhase(v, dir, x, ex), RawPhase(v, dir, y, ey));
  }

  /** The relation of two channels, each pair of draws made together, survives in every seed exactly when
      both keep their streams and a common redraw of the shared LO, if there was one, hits both or neither. */
  lemma {:induction false} DrawsReproducedExactly(w: World, dir: Direction, x: ChannelRef, y: ChannelRef, dx: Draw, dy: Draw, ex: Draw, ey: Draw)
    requires w.period > 0.0 && x != y && dx.tunes == dy.tunes && ex.tunes == ey.tunes
    ensures InEverySeed(w.period, dir, x, y, dx, dy, ex, ey)
            <==> SameStream(dx, ex) && SameStream(dy, ey) && (dx.tunes == ex.tunes || (dx.cls.SharedLo? <==> dy.cls.SharedLo?))
  {
    hide SameRelation, Round;
    if !SameStream(dx, ex) {
      var v := OtherStreamMoves(w, dir, x, y, dx, dy, ex, ey);
      SeedMoves(v, dir, x, y, dx, dy, ex, ey);
    } else if !SameStream(dy, ey) {
      var v := OtherStreamMoves(w, dir, y, x, dy, dx, ey, ex);
      SeedMoves(v, dir, x, y, dx, dy, ex, ey);
    } else if dx.tunes == ex.tunes || (dx.cls.SharedLo? <==> dy.cls.SharedLo?) {
      forall v: World | v.period == w.period ensures SameRelation(v, dir, x, y, dx, dy, ex, ey) {
        SameStreamsKeep(v, dir, x, y, dx, dy, ex, ey);
      }
    } else if dx.cls.SharedLo? {
      var v := SharedMoves(w, dir, x, y, dx, dy, ex, ey);
      SeedMoves(v, dir, x, y, dx, dy, ex, ey);
    } else {
      var v := SharedMoves(w, dir, y, x, dy, dx, ey, ex);
      SeedMoves(v, dir, x, y, dx, dy, ex, ey);
    }
  }

  // --- over runs -------------------------------------------------------------------------------

  /** From s to t the device was not redrawn and its direction not tuned, or both happened. */
  ghost predicate Later(s: SimLo, t: SimLo, k: LoKey) {
    && k in s.drawn && k in t.drawn && TuneCount(s, k.1) <= TuneCount(t, k.1)
    && if TuneCount(s, k.1) == TuneCount(t, k.1) then s.drawn[k] == t.drawn[k] else s.drawn[k].count < t.drawn[k].count
  }

  lemma TuneCounts(cfg: Cfg, w: World, s: Sys, op: SysOp)
    requires TuneHappens(cfg, s, op)
    ensures TuneCount(SimAfter(cfg, w, s, op), op.dir) == TuneCount(s.sim, op.dir) + 1
  {
    hide AtLeast, DrawsOf, ClampFreq, WithChannels;
  }

  lemma OneRun(cfg: Cfg, w: World, s: Sys, op: SysOp)
    ensures SysRun(cfg, w, s, [op]) == SysApply(cfg, w, s, op) && SysApply(cfg, w, s, op).sim == SimAfter(cfg, w, s, op)
  {
    hide BaseOp, Apply, SimAfter;
    assert [op][1..] == [];
  }

  lemma {:induction false} StepLater(cfg: Cfg, w: World, s: Sys, op: SysOp, dir: Direction, i: nat)
    requires UniqueNames(cfg.devices) && i < |WithChannels(cfg.devices, dir)| && (WithChannels(cfg.devices, dir)[i].name, dir) in s.sim.drawn
    ensures Later(s.sim, SysApply(cfg, w, s, op).sim, (WithChannels(cfg.devices, dir)[i].name, dir))
  {
    hide *;
    OneRun(cfg, w, s, op);
    if Retunes(cfg, s, op, dir) {
      RetuneIs(cfg, s, op, dir);
      TuneCounts(cfg, w, s, op);
      DrawAfterTune(cfg, w, s, op, i);
      LaterByTune(s.sim, SimAfter(cfg, w, s, op), (WithChannels(cfg.devices, dir)[i].name, dir));
    } else {
      OthersKeepDraws(cfg, w, s, op, dir);
      LaterBySame(s.sim, SysApply(cfg, w, s, op).sim, (WithChannels(cfg.devices, dir)[i].name, dir));
    }
  }

  lemma RetuneIs(cfg: Cfg, s: Sys, op: SysOp, dir: Direction)
    requires Retunes(cfg, s, op, dir)
    ensures TuneHappens(cfg, s, op) && op.TuneOp? && op.dir == dir
  {
    hide AtLeast;
  }

  lemma LaterByTune(s: SimLo, t: SimLo, k: LoKey)
    requires k in s.drawn && k in t.drawn && TuneCount(t, k.1) == TuneCount(s, k.1) + 1 && t.drawn[k].count == DrawCount(s, k) + 1
    ensures Later(s, t, k)
  {
  }

  lemma LaterBySame(s: SimLo, t: SimLo, k: LoKey)
    requires k in s.drawn && SameDraws(s, t, k.1)
    ensures Later(s, t, k)
  {
  }

  lemma LaterTransitive(s: SimLo, t: SimLo, u: SimLo, k: LoKey)
    requires Later(s, t, k) && Later(t, u, k)
    ensures Later(s, u, k)
  {
    hide TuneCount;
  }

  lemma {:induction false} RunLater(cfg: Cfg, w: World, s: Sys, ops: seq<SysOp>, dir: Direction, i: nat)
    requires UniqueNames(cfg.devices) && i < |WithChannels(cfg.devices, dir)| && (WithChannels(cfg.devices, dir)[i].name, dir) in s.sim.drawn
    ensures Later(s.sim, SysRun(cfg, w, s, ops).sim, (WithChannels(cfg.devices, dir)[i].name, dir))
    decreases |ops|
  {
    if ops != [] {
      var t, k := SysApply(cfg, w, s, ops[0]), (WithChannels(cfg.devices, dir)[i].name, dir);
      hide SysApply, WithChannels, UniqueNames, TuneCount;
      StepLater(cfg, w, s, ops[0], dir, i);
      RunLater(cfg, w, t, ops[1..], dir, i);
      LaterTransitive(s.sim, t.sim, SysRun(cfg, w, t, ops[1..]).sim, k);
    }
  }

  lemma {:induction false} ReachableTogether(cfg: Cfg, w: World, s: Sys, dir: Direction)
    requires UniqueNames(cfg.devices) && Reachable(cfg, w, s)
    ensures DrawnTogether(cfg, s.sim, dir)
  {
    FirstTogether(cfg, w, dir);
    var before :| OpsOk(before) && SysRun(cfg, w, AtStart(cfg, w), before) == s;
    hide DrawnTogether, Constructed, SysRun, UniqueNames;
    RunTogether(cfg, w, AtStart(cfg, w), before, dir);
  }

  /** What a redraw has to leave as it was: classes, stable ones, with both channels or neither on the
      shared LO, and the frequency where a phase depends on it. */
  predicate Kept(dx: Draw, dy: Draw, ex: Draw, ey: Draw) {
    && dx.cls == ex.cls && dy.cls == ey.cls && Stable(dx.cls) && Stable(dy.cls)
    && (dx.cls.SharedLo? <==> dy.cls.SharedLo?)
    && (dx.cls.Repeatable? ==> Round(dx.f) == Round(ex.f))
    && (dy.cls.Repeatable? ==> Round(dy.f) == Round(ey.f))
  }

  /** Draws of both channels in both states, in the same relation whatever the seed. */
  ghost predicate Preserved(period: real, s: SimLo, t: SimLo, dir: Direction, x: ChannelRef, y: ChannelRef)
    requires period > 0.0
    requires (x.device, dir) in s.drawn && (y.device, dir) in s.drawn && (x.device, dir) in t.drawn && (y.device, dir) in t.drawn
  {
    InEverySeed(period, dir, x, y, s.drawn[(x.device, dir)], s.drawn[(y.device, dir)], t.drawn[(x.device, dir)], t.drawn[(y.device, dir)])
  }

  lemma {:induction false} LaterReproducedExactly(cfg: Cfg, w: World, s: SimLo, t: SimLo, dir: Direction, a: DeviceCfg, b: DeviceCfg, x: ChannelRef, y: ChannelRef)
    requires w.period > 0.0 && x != y && x.device == a.name && y.device == b.name
    requires DrawnInto(cfg, s, dir, a) && DrawnInto(cfg, s, dir, b) && DrawnInto(cfg, t, dir, a) && DrawnInto(cfg, t, dir, b)
    requires Later(s, t, (a.name, dir)) && Later(s, t, (b.name, dir))
    ensures Preserved(w.period, s, t, dir, x, y)
            <==> || TuneCount(s, dir) == TuneCount(t, dir)
                 || Kept(s.drawn[(a.name, dir)], s.drawn[(b.name, dir)], t.drawn[(a.name, dir)], t.drawn[(b.name, dir)])
  {
    hide InEverySeed, TuneCount, Fc, Round, DrawFits;
    DrawsReproducedExactly(w, dir, x, y, s.drawn[(a.name, dir)], s.drawn[(b.name, dir)], t.drawn[(a.name, dir)], t.drawn[(b.name, dir)]);
  }

  /** Between any two states of a run, whatever the operations: the relation of two different channels of a
      direction is the same in every seed exactly when the direction was not tuned in between, or the
      draws kept what they have to. */
  lemma {:induction false} PairReproducedExactly(cfg: Cfg, w: World, s: Sys, ops: seq<SysOp>, dir: Direction, i: nat, j: nat, cx: int, cy: int)
    requires UniqueNames(cfg.devices) && w.period > 0.0 && Reachable(cfg, w, s)
    requires i < |WithChannels(cfg.devices, dir)| && j < |WithChannels(cfg.devices, dir)|
    requires ChannelRef(WithChannels(cfg.devices, dir)[i].name, cx) != ChannelRef(WithChannels(cfg.devices, dir)[j].name, cy)
    ensures var t, a, b := SysRun(cfg, w, s, ops), (WithChannels(cfg.devices, dir)[i].name, dir), (WithChannels(cfg.devices, dir)[j].name, dir);
            && a in s.sim.drawn && b in s.sim.drawn && a in t.sim.drawn && b in t.sim.drawn
            && (Preserved(w.period, s.sim, t.sim, dir, ChannelRef(a.0, cx), ChannelRef(b.0, cy))
                <==> || TuneCount(s.sim, dir) == TuneCount(t.sim, dir)
                     || Kept(s.sim.drawn[a], s.sim.drawn[b], t.sim.drawn[a], t.sim.drawn[b]))
  {
    hide *;
    var t, devs := SysRun(cfg, w, s, ops), WithChannels(cfg.devices, dir);
    ReachableTogether(cfg, w, s, dir);
    RunTogether(cfg, w, s, ops, dir);
    InTogether(cfg, s.sim, dir, i);
    InTogether(cfg, s.sim, dir, j);
    InTogether(cfg, t.sim, dir, i);
    InTogether(cfg, t.sim, dir, j);
    RunLater(cfg, w, s, ops, dir, i);
    RunLater(cfg, w, s, ops, dir, j);
    LaterReproducedExactly(cfg, w, s.sim, t.sim, dir, devs[i], devs[j], ChannelRef(devs[i].name, cx), ChannelRef(devs[j].name, cy));
  }

  lemma InTogether(cfg: Cfg, s: SimLo, dir: Direction, i: nat)
    requires DrawnTogether(cfg, s, dir) && i < |WithChannels(cfg.devices, dir)|
    ensures var d := WithChannels(cfg.devices, dir)[i]; DrawnInto(cfg, s, dir, d) && (d.name, dir) in s.drawn
  {
    hide WithChannels, Fc, TuneCount;
  }

  // --- with an unchanged generation ------------------------------------------------------------

  /** Both channels on the shared LO before and after, or neither ever; and then both phases fixed or the
      same rounded frequency. */
  predicate KeptUnbumped(a: DeviceCfg, b: DeviceCfg, dx: Draw, dy: Draw, ex: Draw, ey: Draw) {
    || (dx.cls.SharedLo? && dy.cls.SharedLo? && ex.cls.SharedLo? && ey.cls.SharedLo?)
    || (!dx.cls.SharedLo? && !dy.cls.SharedLo? && !ex.cls.SharedLo? && !ey.cls.SharedLo?
        && ((a.caps.deterministic && b.caps.deterministic) || Round(dx.f) == Round(ex.f)))
  }

  lemma StableDraw(cfg: Cfg, s: Sys, dir: Direction, i: nat)
    requires DirOk(cfg, s, dir) && dir in s.b.rf.last && Stable(s.b.rf.last[dir].cls)
    requires i < |WithChannels(cfg.devices, dir)| && DrawnInto(cfg, s.sim, dir, WithChannels(cfg.devices, dir)[i])
    ensures var d := WithChannels(cfg.devices, dir)[i]; Stable(s.sim.drawn[(d.name, dir)].cls)
  {
    hide WithChannels, Fc, TuneCount;
    var devs := WithChannels(cfg.devices, dir);
    StableAbove(s.b.rf.last[dir].cls, ClassOf(s.sim, dir, devs[i]));
  }

  lemma KeptForStable(cfg: Cfg, s: SimLo, t: SimLo, dir: Direction, a: DeviceCfg, b: DeviceCfg)
    requires DrawnInto(cfg, s, dir, a) && DrawnInto(cfg, s, dir, b) && DrawnInto(cfg, t, dir, a) && DrawnInto(cfg, t, dir, b)
    requires var dx, dy, ex, ey := s.drawn[(a.name, dir)], s.drawn[(b.name, dir)], t.drawn[(a.name, dir)], t.drawn[(b.name, dir)];
             Stable(dx.cls) && Stable(dy.cls) && Stable(ex.cls) && Stable(ey.cls)
    ensures var dx, dy, ex, ey := s.drawn[(a.name, dir)], s.drawn[(b.name, dir)], t.drawn[(a.name, dir)], t.drawn[(b.name, dir)];
            Kept(dx, dy, ex, ey) <==> KeptUnbumped(a, b, dx, dy, ex, ey)
  {
    hide Round, Fc, TuneCount;
  }

  /** With an unchanged generation the condition is on sharing and frequency alone: the classes are stable. */
  lemma {:induction false} UnbumpedPairReproducedExactly(cfg: Cfg, w: World, s: Sys, between: seq<SysOp>, dir: Direction, i: nat, j: nat, cx: int, cy: int)
    requires UniqueNames(cfg.devices) && TableOk(cfg) && w.period > 0.0 && Reachable(cfg, w, s)
    requires Outside(between) && dir in s.b.rf.last && SysRun(cfg, w, s, between).b.generation == s.b.generation
    requires i < |WithChannels(cfg.devices, dir)| && j < |WithChannels(cfg.devices, dir)|
    requires ChannelRef(WithChannels(cfg.devices, dir)[i].name, cx) != ChannelRef(WithChannels(cfg.devices, dir)[j].name, cy)
    ensures var t, a, b := SysRun(cfg, w, s, between), WithChannels(cfg.devices, dir)[i], WithChannels(cfg.devices, dir)[j];
            && (a.name, dir) in s.sim.drawn && (b.name, dir) in s.sim.drawn && (a.name, dir) in t.sim.drawn && (b.name, dir) in t.sim.drawn
            && (Preserved(w.period, s.sim, t.sim, dir, ChannelRef(a.name, cx), ChannelRef(b.name, cy))
                <==> || TuneCount(s.sim, dir) == TuneCount(t.sim, dir)
                     || KeptUnbumped(a, b, s.sim.drawn[(a.name, dir)], s.sim.drawn[(b.name, dir)],
                                     t.sim.drawn[(a.name, dir)], t.sim.drawn[(b.name, dir)]))
  {
    hide *;
    PairReproducedExactly(cfg, w, s, between, dir, i, j, cx, cy);
    var t, devs := SysRun(cfg, w, s, between), WithChannels(cfg.devices, dir);
    UnbumpedStable(cfg, w, s, between, dir, i);
    UnbumpedStable(cfg, w, s, between, dir, j);
    if TuneCount(s.sim, dir) != TuneCount(t.sim, dir) {
      KeptForStable(cfg, s.sim, t.sim, dir, devs[i], devs[j]);
    }
  }

  /** Retuned without a bump: the device was and is on a stable class. */
  lemma {:induction false} UnbumpedStable(cfg: Cfg, w: World, s: Sys, between: seq<SysOp>, dir: Direction, i: nat)
    requires UniqueNames(cfg.devices) && TableOk(cfg) && Reachable(cfg, w, s)
    requires Outside(between) && dir in s.b.rf.last && SysRun(cfg, w, s, between).b.generation == s.b.generation
    requires i < |WithChannels(cfg.devices, dir)|
    ensures var t, d := SysRun(cfg, w, s, between), WithChannels(cfg.devices, dir)[i];
            && DrawnInto(cfg, s.sim, dir, d) && DrawnInto(cfg, t.sim, dir, d) && (d.name, dir) in s.sim.drawn && (d.name, dir) in t.sim.drawn
            && (TuneCount(s.sim, dir) != TuneCount(t.sim, dir)
                ==> Stable(s.sim.drawn[(d.name, dir)].cls) && Stable(t.sim.drawn[(d.name, dir)].cls))
  {
    hide *;
    var t := SysRun(cfg, w, s, between);
    ReachableOk(cfg, w, s);
    OutsideOk(between);
    SysOkThroughout(cfg, w, s, between);
    RunContinues(cfg, w, s, between, dir);
    RetunedRecord(cfg, s, t, dir);
    InTogether(cfg, s.sim, dir, i);
    InTogether(cfg, t.sim, dir, i);
    if TuneCount(s.sim, dir) != TuneCount(t.sim, dir) {
      StableDraw(cfg, s, dir, i);
      StableDraw(cfg, t, dir, i);
    }
  }

  lemma OutsideOk(ops: seq<SysOp>)
    requires Outside(ops)
    ensures OpsOk(ops)
  {
  }

  lemma RetunedRecord(cfg: Cfg, s: Sys, t: Sys, dir: Direction)
    requires dir in s.b.rf.last && Continues(s, t, dir) && SysOk(cfg, s) && SysOk(cfg, t)
    ensures dir in t.b.rf.last && DrawnTogether(cfg, s.sim, dir) && DrawnTogether(cfg, t.sim, dir)
    ensures DirOk(cfg, s, dir) && DirOk(cfg, t, dir)
    ensures TuneCount(s.sim, dir) != TuneCount(t.sim, dir) ==> Stable(s.b.rf.last[dir].cls) && Stable(t.b.rf.last[dir].cls)
  {
    hide DrawnTogether, RecordFits, Tracks, Inv;
  }

  /** A channel on the shared LO against one that is not: every retune in between moves them in some seed,
      though the generation is unchanged. */
  lemma {:induction false} MixedPhasesMove(cfg: Cfg, w: World, s: Sys, between: seq<SysOp>, dir: Direction, i: nat, j: nat, cx: int, cy: int)
    requires UniqueNames(cfg.devices) && TableOk(cfg) && w.period > 0.0 && Reachable(cfg, w, s)
    requires Outside(between) && dir in s.b.rf.last && SysRun(cfg, w, s, between).b.generation == s.b.generation
    requires TuneCount(s.sim, dir) != TuneCount(SysRun(cfg, w, s, between).sim, dir)
    requires i < |WithChannels(cfg.devices, dir)| && j < |WithChannels(cfg.devices, dir)|
    requires ClassOf(s.sim, dir, WithChannels(cfg.devices, dir)[i]).SharedLo? && !ClassOf(s.sim, dir, WithChannels(cfg.devices, dir)[j]).SharedLo?
    ensures var t, a, b := SysRun(cfg, w, s, between), WithChannels(cfg.devices, dir)[i], WithChannels(cfg.devices, dir)[j];
            && (a.name, dir) in s.sim.drawn && (b.name, dir) in s.sim.drawn && (a.name, dir) in t.sim.drawn && (b.name, dir) in t.sim.drawn
            && !Preserved(w.period, s.sim, t.sim, dir, ChannelRef(a.name, cx), ChannelRef(b.name, cy))
  {
    hide SysRun, WithChannels, Reachable, UniqueNames, TableOk, Preserved, Outside, TuneCount, Round;
    assert WithChannels(cfg.devices, dir)[i].name != WithChannels(cfg.devices, dir)[j].name;
    UnbumpedPairReproducedExactly(cfg, w, s, between, dir, i, j, cx, cy);
  }
}
