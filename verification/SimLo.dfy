/** The simulator's local oscillators: what is programmed, which class each tune draws, and the
    phases drawn (`_lo_class`, `_draw_lo`, `_do_tune`, `_do_set_lo_*` of active_backend_sim.py),
    together with the base class bookkeeping that has to agree with them. */
module SimLos {
  import opened Results
  import opened Reals
  import opened HalfEven
  import opened LoPlans
  import opened Backends

  // --- random phases ---------------------------------------------------------------------------

  /** The keys of the seeded random streams LO phases come from. */
  datatype PhaseKey =
    | SharedKey(dir: Direction, tunes: nat)
    | PathKey(ref: ChannelRef, dir: Direction)
    | RepeatableKey(ref: ChannelRef, dir: Direction, hz: int)
    | BaseKey(ref: ChannelRef, dir: Direction, hz: int)
    | BitKey(ref: ChannelRef, dir: Direction, count: nat)
    | FixedKey(ref: ChannelRef, dir: Direction)
    | RandomKey(ref: ChannelRef, dir: Direction, count: nat)

  /** Any seed: a phase and a bit for every key. `period` is one turn. */
  datatype World = World(u: PhaseKey -> real, bit: PhaseKey -> bool, period: real, pervices: bool)

  /** A phase brought into the turn around zero. */
  function Wrap(period: real, x: real): real
    requires period > 0.0
  {
    x - Turns(period, ((x + period / 2.0) / period).Floor)
  }

  function Turns(period: real, k: int): real {
    k as real * period
  }

  /** Wrapping moves a phase by whole turns into the turn around zero. */
  lemma {:induction false} WrapRange(period: real, x: real)
    requires period > 0.0
    ensures -period / 2.0 <= Wrap(period, x) < period / 2.0
  {
    var q := (x + period / 2.0) / period;
    var k := q.Floor;
    assert q * period == x + period / 2.0;
    ProductOrder(k as real, q, period);
    ProductOrder(q, k as real + 1.0, period);
    assert (k as real + 1.0) * period == Turns(period, k) + period;
  }

  lemma ProductOrder(x: real, y: real, z: real)
    requires z > 0.0
    ensures x <= y ==> x * z <= y * z
    ensures x < y ==> x * z < y * z
  {
    assert (y - x) * z == y * z - x * z;
    assert y - x > 0.0 ==> (y - x) * z > 0.0;
  }

  /** What a draw depends on besides the channel. */
  datatype Draw = Draw(cls: PhaseClass, f: real, tunes: nat, count: nat)

  function RawPhase(w: World, dir: Direction, ref: ChannelRef, d: Draw): real {
    match d.cls
    case SharedLo => w.u(SharedKey(dir, d.tunes)) + w.u(PathKey(ref, dir))
    case Repeatable => w.u(RepeatableKey(ref, dir, Round(d.f)))
    case Ambiguous180 => w.u(BaseKey(ref, dir, Round(d.f))) + if w.bit(BitKey(ref, dir, d.count)) then w.period / 2.0 else 0.0
    case Deterministic => w.u(FixedKey(ref, dir))
    case RandomPhase => w.u(RandomKey(ref, dir, d.count))
  }

  function PhaseOfDraw(w: World, dir: Direction, ref: ChannelRef, d: Draw): real
    requires w.period > 0.0
  {
    Wrap(w.period, RawPhase(w, dir, ref, d))
  }

  // --- simulator state -------------------------------------------------------------------------

  /** `drawn` holds the last draw of each device and direction: every channel phase is a function of it. */
  datatype SimLo = SimLo(
    src: map<LoKey, LoSource>,
    exp: map<LoKey, bool>,
    fc: map<Direction, real>,
    tunes: map<Direction, nat>,
    drawn: map<LoKey, Draw>)

  function Fc(cfg: Cfg, s: SimLo, dir: Direction): real {
    if dir in s.fc then s.fc[dir] else cfg.centerFreq
  }

  function TuneCount(s: SimLo, dir: Direction): nat {
    if dir in s.tunes then s.tunes[dir] else 0
  }

  function DrawCount(s: SimLo, k: LoKey): nat {
    if k in s.drawn then s.drawn[k].count else 0
  }

  /** The nested helper of `_lo_class`: does the device really run from the shared LO? */
  predicate Active(cfg: Cfg, plan: Plan, s: SimLo, d: DeviceCfg, dir: Direction) {
    var k := (d.name, dir);
    && (plan.Star? || plan.TwinRx?)
    && Shared(cfg, plan, d)
    && (if Exporter(cfg, plan, d) then ExportOn(s.exp, k)
        else if plan.TwinRx? && d.loSource.FromCompanion? then LoSourceOf(s.src, k) == FromCompanion
        else LoSourceOf(s.src, k) == d.loSource && AnyExportOn(cfg, plan, s.exp, dir))
  }

  /** The class physically drawn for a device (`_lo_class`): note the external-LO branch does not ask
      for the external-LO plan. */
  function PhysicalClass(cfg: Cfg, s: SimLo, d: DeviceCfg, dir: Direction, f: real, timed: bool): PhaseClass {
    var plan := ResolvePlan(cfg);
    if plan.Star? && Active(cfg, plan, s, d, dir) && f >= d.caps.shareMinHz then SharedLo
    else if plan.TwinRx? && Active(cfg, plan, s, d, dir) then SharedLo
    else if |cfg.devices| == 1 && d.caps.share.IntraDevice? then SharedLo
    else if d.caps.external180 && d.loSource.FromExternal? && LoSourceOf(s.src, (d.name, dir)) == FromExternal then Ambiguous180
    else if d.caps.deterministic then Deterministic
    else if timed && d.caps.timedTune && d.caps.repeatable then Repeatable
    else RandomPhase
  }

  /** A tune that is timed at all, on a device whose command time is set and far enough ahead. */
  predicate PhysicallyTimed(w: World, d: DeviceCfg, at: bool, ahead: set<string>) {
    at && d.name in ahead && d.caps.timedTune && !w.pervices
  }

  function ClampFreq(devs: seq<DeviceCfg>, f: real): real {
    if devs == [] then f else Min(Max(f, MaxOfMins(devs)), MinOfMaxes(devs))
  }

  function MaxOfMins(devs: seq<DeviceCfg>): real
    requires devs != []
  {
    if |devs| == 1 then devs[0].freqMin else Max(MaxOfMins(devs[..|devs| - 1]), devs[|devs| - 1].freqMin)
  }

  function MinOfMaxes(devs: seq<DeviceCfg>): real
    requires devs != []
  {
    if |devs| == 1 then devs[0].freqMax else Min(MinOfMaxes(devs[..|devs| - 1]), devs[|devs| - 1].freqMax)
  }

  predicate BandCrossed(devs: seq<DeviceCfg>, fOld: real, fNew: real) {
    exists i, j :: 0 <= i < |devs| && 0 <= j < |devs[i].caps.bandEdges|
                   && (fOld < devs[i].caps.bandEdges[j]) != (fNew < devs[i].caps.bandEdges[j])
  }

  /** What the hook reports to the base class. */
  function TuneResult(cfg: Cfg, w: World, s: SimLo, dir: Direction, f: real, at: bool, ahead: set<string>): TuneHook {
    var devs := WithChannels(cfg.devices, dir);
    var center := ClampFreq(devs, f);
    TuneHook(center,
             devs != [] && forall i :: 0 <= i < |devs| ==> PhysicallyTimed(w, devs[i], at, ahead),
             BandCrossed(devs, Fc(cfg, s, dir), center))
  }

  /** The n-th common draw of each device of the direction, all from the state before it. */
  function DrawsOf(cfg: Cfg, w: World, s: SimLo, dir: Direction, center: real, n: nat, at: bool, ahead: set<string>, devs: seq<DeviceCfg>): (r: map<LoKey, Draw>)
    ensures forall k :: k in r ==> k.1 == dir
  {
    if devs == [] then map[]
    else
      var d := devs[|devs| - 1];
      DrawsOf(cfg, w, s, dir, center, n, at, ahead, devs[..|devs| - 1])
      [(d.name, dir) := Draw(PhysicalClass(cfg, s, d, dir, center, PhysicallyTimed(w, d, at, ahead)),
                             center, n, DrawCount(s, (d.name, dir)) + 1)]
  }

  /** `_do_tune`: every device with channels in the direction draws anew. */
  function SimTune(cfg: Cfg, w: World, s: SimLo, dir: Direction, f: real, at: bool, ahead: set<string>): SimLo {
    var devs := WithChannels(cfg.devices, dir);
    var center := ClampFreq(devs, f);
    s.(fc := s.fc[dir := center],
       tunes := s.tunes[dir := TuneCount(s, dir) + 1],
       drawn := s.drawn + DrawsOf(cfg, w, s, dir, center, TuneCount(s, dir) + 1, at, ahead, devs))
  }

  const Unprogrammed: SimLo := SimLo(map[], map[], map[], map[], map[])

  /** The phases the constructor draws for one direction: untimed, at the configured frequency. */
  function FirstDraws(cfg: Cfg, w: World, dir: Direction): (r: map<LoKey, Draw>)
    ensures forall k :: k in r ==> k.1 == dir
  {
    DrawsOf(cfg, w, Unprogrammed, dir, cfg.centerFreq, 0, false, {}, WithChannels(cfg.devices, dir))
  }

  /** A simulator just constructed. */
  function Constructed(cfg: Cfg, w: World): SimLo {
    Unprogrammed.(drawn := FirstDraws(cfg, w, Rx) + FirstDraws(cfg, w, Tx))
  }

  predicate Configured(cfg: Cfg, dir: Direction, ref: ChannelRef) {
    exists i :: 0 <= i < |cfg.devices| && cfg.devices[i].name == ref.device && ref.channel in Channels(cfg.devices[i], dir)
  }

  predicate CanImport(cfg: Cfg, name: string) {
    exists i :: 0 <= i < |cfg.devices| && cfg.devices[i].name == name && cfg.devices[i].caps.canImport
  }

  predicate CanExport(cfg: Cfg, name: string) {
    exists i :: 0 <= i < |cfg.devices| && cfg.devices[i].name == name && cfg.devices[i].caps.canExport
  }

  // --- base class and simulator together -------------------------------------------------------

  datatype Sys = Sys(b: Backend, sim: SimLo)

  datatype SysOp =
    | TuneOp(dir: Direction, f: real, lo: real, at: bool, ahead: set<string>, late: bool, bump: bool)
    | LoSourceOp(dir: Direction, ref: ChannelRef, src: LoSource)
    | LoExportOp(dir: Direction, ref: ChannelRef, on: bool)
    | OpenOp(paLinesOk: bool)
    | PlainOp(op: Op)

  /** Operations whose hooks do not touch the oscillators. */
  predicate Plain(op: Op) {
    !op.OpTune? && !op.OpLoSource? && !op.OpLoExport? && !op.OpOpen?
  }

  /** The backend operation a call amounts to, given what the simulator's hook answers. */
  function BaseOp(cfg: Cfg, w: World, s: Sys, op: SysOp): Op {
    match op
    case TuneOp(dir, f, lo, at, ahead, late, bump) =>
      OpTune(dir, f, lo, Fc(cfg, s.sim, dir), at && late, Some(TuneResult(cfg, w, s.sim, dir, f, at, ahead)), bump)
    case LoSourceOp(dir, ref, src) =>
      OpLoSource(dir, ref, src,
                 if Configured(cfg, dir, ref) && !src.FromUnknown? && (src.FromInternal? || CanImport(cfg, ref.device)) then Done else Refused)
    case LoExportOp(dir, ref, on) =>
      OpLoExport(dir, ref, on, if Configured(cfg, dir, ref) && (!on || CanExport(cfg, ref.device)) then Done else Refused)
    case OpenOp(paOk) => OpOpen(true, paOk)
    case PlainOp(o) => o
  }

  /** What the hook does to the simulator, if the base class gets as far as calling it. */
  function SimAfter(cfg: Cfg, w: World, s: Sys, op: SysOp): SimLo {
    match op
    case TuneOp(dir, f, lo, at, ahead, late, bump) =>
      if AtLeast(cfg, s.b, RefsSet) && f > 0.0 then SimTune(cfg, w, s.sim, dir, f, at, ahead) else s.sim
    case LoSourceOp(dir, ref, src) =>
      if s.b.open && BaseOp(cfg, w, s, op).hook.Done? then s.sim.(src := s.sim.src[(ref.device, dir) := src]) else s.sim
    case LoExportOp(dir, ref, on) =>
      if s.b.open && BaseOp(cfg, w, s, op).hook.Done? then s.sim.(exp := s.sim.exp[(ref.device, dir) := on]) else s.sim
    case OpenOp(_) => if s.b.open then s.sim else s.sim.(src := map[], exp := map[])
    case PlainOp(_) => s.sim
  }

  /** Backend and simulator just constructed. */
  function AtStart(cfg: Cfg, w: World): Sys {
    Sys(Fresh, Constructed(cfg, w))
  }

  function SysApply(cfg: Cfg, w: World, s: Sys, op: SysOp): Sys {
    Sys(Apply(cfg, s.b, BaseOp(cfg, w, s, op)), SimAfter(cfg, w, s, op))
  }

  function SysRun(cfg: Cfg, w: World, s: Sys, ops: seq<SysOp>): Sys
    decreases |ops|
  {
    if ops == [] then s else SysRun(cfg, w, SysApply(cfg, w, s, ops[0]), ops[1..])
  }

  ghost predicate OpsOk(ops: seq<SysOp>) {
    forall i :: 0 <= i < |ops| && ops[i].PlainOp? ==> Plain(ops[i].op)
  }

  // --- the bookkeeping is the physics ----------------------------------------------------------

  /** The LO state the base class tracks is the simulator's LO state. */
  ghost predicate Tracks(s: Sys) {
    && (forall k :: LoSourceOf(s.b.lo.src, k) == LoSourceOf(s.sim.src, k))
    && (forall k :: ExportOn(s.b.lo.exp, k) == ExportOn(s.sim.exp, k))
  }

  lemma PlainKeepsLo(cfg: Cfg, b: Backend, op: Op)
    requires Plain(op)
    ensures Apply(cfg, b, op).lo.src == b.lo.src && Apply(cfg, b, op).lo.exp == b.lo.exp
  {
    hide DropTime, Forget, Close, SetRate, SetIntDelay, KnownTarget, SetClock, SetTimeSrc, LoadTimes, StartRx, SetCommandTimes, ClearCommandTimes;
  }

  lemma TuneKeepsLo(cfg: Cfg, b: Backend, op: Op)
    requires op.OpTune?
    ensures Apply(cfg, b, op).lo == b.lo
  {
    hide Tune;
  }

  lemma {:induction false} TrackingKept(cfg: Cfg, w: World, s: Sys, op: SysOp)
    requires Tracks(s) && (op.PlainOp? ==> Plain(op.op))
    ensures Tracks(SysApply(cfg, w, s, op))
  {
    match op
    case TuneOp(_, _, _, _, _, _, _) =>
      hide AtLeast, TuneResult, SimTune;
      TuneKeepsLo(cfg, s.b, BaseOp(cfg, w, s, op));
      SimTuneKeepsLo(cfg, w, s.sim, op);
      hide Apply;
    case PlainOp(o) =>
      PlainKeepsLo(cfg, s.b, o);
      hide Apply;
    case LoSourceOp(_, _, _) => LoSourceTracked(cfg, w, s, op);
    case LoExportOp(_, _, _) => LoExportTracked(cfg, w, s, op);
    case OpenOp(_) =>
  }

  lemma LoSourceTracked(cfg: Cfg, w: World, s: Sys, op: SysOp)
    requires Tracks(s) && op.LoSourceOp?
    ensures Tracks(SysApply(cfg, w, s, op))
  {
    hide Configured, CanImport;
    var t, k := SysApply(cfg, w, s, op), (op.ref.device, op.dir);
    assert t.b.lo.exp == s.b.lo.exp && t.sim.exp == s.sim.exp;
    assert s.b.open && BaseOp(cfg, w, s, op).hook.Done?
        ==> t.b.lo.src == s.b.lo.src[k := op.src] && t.sim.src == s.sim.src[k := op.src];
    assert !(s.b.open && BaseOp(cfg, w, s, op).hook.Done?) ==> t.b.lo.src == s.b.lo.src && t.sim.src == s.sim.src;
    forall j ensures LoSourceOf(t.b.lo.src, j) == LoSourceOf(t.sim.src, j) {
      assert LoSourceOf(s.b.lo.src, j) == LoSourceOf(s.sim.src, j);
    }
  }

  lemma LoExportTracked(cfg: Cfg, w: World, s: Sys, op: SysOp)
    requires Tracks(s) && op.LoExportOp?
    ensures Tracks(SysApply(cfg, w, s, op))
  {
    hide Configured, CanExport;
    var t, k := SysApply(cfg, w, s, op), (op.ref.device, op.dir);
    assert t.b.lo.src == s.b.lo.src && t.sim.src == s.sim.src;
    assert s.b.open && BaseOp(cfg, w, s, op).hook.Done?
        ==> t.b.lo.exp == s.b.lo.exp[k := op.on] && t.sim.exp == s.sim.exp[k := op.on];
    assert !(s.b.open && BaseOp(cfg, w, s, op).hook.Done?) ==> t.b.lo.exp == s.b.lo.exp && t.sim.exp == s.sim.exp;
    forall j ensures ExportOn(t.b.lo.exp, j) == ExportOn(t.sim.exp, j) {
      assert ExportOn(s.b.lo.exp, j) == ExportOn(s.sim.exp, j);
    }
  }

  lemma SimTuneKeepsLo(cfg: Cfg, w: World, s: SimLo, op: SysOp)
    requires op.TuneOp?
    ensures SimTune(cfg, w, s, op.dir, op.f, op.at, op.ahead).src == s.src
    ensures SimTune(cfg, w, s, op.dir, op.f, op.at, op.ahead).exp == s.exp
  {
  }

  /** In every reachable state the tracked LO state is the physical one. */
  lemma {:induction false} RunTracks(cfg: Cfg, w: World, s: Sys, ops: seq<SysOp>)
    requires Tracks(s) && OpsOk(ops)
    ensures Tracks(SysRun(cfg, w, s, ops))
    decreases |ops|
  {
    if ops != [] {
      assert ops[0].PlainOp? ==> Plain(ops[0].op);
      TrackingKept(cfg, w, s, ops[0]);
      assert OpsOk(ops[1..]) by {
        forall i | 0 <= i < |ops[1..]| && ops[1..][i].PlainOp? ensures Plain(ops[1..][i].op) {
          assert ops[i + 1].PlainOp? ==> Plain(ops[i + 1].op);
        }
      }
      hide SysApply, Tracks;
      RunTracks(cfg, w, SysApply(cfg, w, s, ops[0]), ops[1..]);
    }
  }
}
