/** The bookkeeping every radio backend shares (`ActiveBackend` of active_backend.py), on values: one
    function per public operation. Hooks of the concrete backend are parameters: what they return,
    or that they raise. */
module Backends {
  import opened Results
  import opened Reals
  import opened LoPlans

  datatype ChannelRef = ChannelRef(device: string, channel: int)

  datatype LastTune = LastTune(fc: real, lo: real, timed: bool, cls: PhaseClass)

  datatype Phase = ClosedPhase | OpenPhase | RefsSet | TimeSet | Tuned | Streaming

  function PhaseRank(p: Phase): nat {
    match p
    case ClosedPhase => 0
    case OpenPhase => 1
    case RefsSet => 2
    case TimeSet => 3
    case Tuned => 4
    case Streaming => 5
  }

  /** RF settings programmed through the API, per direction. */
  datatype Rf = Rf(
    rate: map<Direction, real>,
    center: map<Direction, real>,
    loOffset: map<Direction, real>,
    last: map<Direction, LastTune>)

  /** LO sources, LO exports and device-side integer delays programmed through the API. */
  datatype Lo = Lo(
    src: map<LoKey, LoSource>,
    exp: map<LoKey, bool>,
    delay: map<(Direction, ChannelRef), int>)

  datatype Backend = Backend(
    open: bool,
    everOpened: bool,
    clockSet: set<string>,
    timeSrcSet: set<string>,
    timeSet: set<string>,
    tuned: bool,
    tunedDirs: set<Direction>,
    streaming: bool,
    txStreamer: bool,
    syncDepth: int,
    rf: Rf,
    lo: Lo,
    cmdTime: map<string, real>,
    generation: nat)

  const NoRf: Rf := Rf(map[], map[], map[], map[])
  const NoLo: Lo := Lo(map[], map[], map[])

  /** A fresh object, before the first `open`. */
  const Fresh: Backend := Backend(false, false, {}, {}, {}, false, {}, false, false, 0, NoRf, NoLo, map[], 0)

  function DeviceNames(cfg: Cfg): set<string> {
    set i | 0 <= i < |cfg.devices| :: cfg.devices[i].name
  }

  predicate RefsOk(cfg: Cfg, b: Backend) {
    DeviceNames(cfg) <= b.clockSet && DeviceNames(cfg) <= b.timeSrcSet
  }

  predicate TimeOk(cfg: Cfg, b: Backend) {
    cfg.devices != [] && DeviceNames(cfg) <= b.timeSet
  }

  predicate TimeRequired(cfg: Cfg) {
    |cfg.devices| > 1 || !cfg.syncMethodNone
  }

  function PhaseOf(cfg: Cfg, b: Backend): Phase {
    if !b.open then ClosedPhase
    else if b.streaming then Streaming
    else if RefsOk(cfg, b) && b.tuned then Tuned
    else if RefsOk(cfg, b) && TimeOk(cfg, b) then TimeSet
    else if RefsOk(cfg, b) then RefsSet
    else OpenPhase
  }

  predicate AtLeast(cfg: Cfg, b: Backend, p: Phase) {
    PhaseRank(PhaseOf(cfg, b)) >= PhaseRank(p)
  }

  // --- RF state as programmed ------------------------------------------------------------------

  function Rate(cfg: Cfg, b: Backend, dir: Direction): real {
    if dir in b.rf.rate then b.rf.rate[dir] else cfg.sampleRate
  }

  function TunedFreq(cfg: Cfg, b: Backend, dir: Direction): real {
    if dir in b.rf.center then b.rf.center[dir] else cfg.centerFreq
  }

  function TunedLoOffset(cfg: Cfg, b: Backend, dir: Direction): real {
    if dir in b.rf.loOffset then b.rf.loOffset[dir] else cfg.loOffset
  }

  function DelayOf(lo: Lo, k: (Direction, ChannelRef)): int {
    if k in lo.delay then lo.delay[k] else 0
  }

  // --- operations ------------------------------------------------------------------------------

  /** Hook outcomes: done, refused before any change, or broken half way. */
  datatype Hook = Done | Refused | Broke

  /** What `_do_tune` reports: the centre it reached, whether it ran timed, whether it crossed a band edge. */
  datatype TuneHook = TuneHook(center: real, timed: bool, bandChange: bool)

  /** `None` names all devices. */
  type Target = Option<string>

  datatype Op =
    | OpOpen(hookOk: bool, paLinesOk: bool)
    | OpClose
    | OpClockSource(target: Target, hookOk: bool)
    | OpTimeSource(target: Target, hookOk: bool)
    | OpMasterClock(target: Target, hz: real, hookOk: bool)
    | OpTimeLoad(devs: Option<seq<string>>, hookOk: bool)     // None: unknown device or group
    | OpInvalidateTime
    | OpBeginSync
    | OpEndSync
    | OpSetRate(dir: Direction, hz: real, actual: Option<real>)
    | OpTune(dir: Direction, f: real, lo: real, fOld: real, late: bool, result: Option<TuneHook>, bump: bool)
    | OpLoSource(dir: Direction, ref: ChannelRef, src: LoSource, hook: Hook)
    | OpLoExport(dir: Direction, ref: ChannelRef, on: bool, hook: Hook)
    | OpIntDelay(dir: Direction, ref: ChannelRef, n: int, accepted: Option<bool>, bump: bool)
    | OpRxStart(hookOk: bool)
    | OpRxStop
    | OpSetCommandTime(target: Target, t: real, hookOk: bool)
    | OpClearCommandTime(target: Target, hookOk: bool)

  predicate KnownTarget(cfg: Cfg, t: Target) {
    t.None? || t.value in DeviceNames(cfg)
  }

  function Targets(cfg: Cfg, t: Target): set<string> {
    if t.None? then DeviceNames(cfg) else {t.value}
  }

  /** A reference or rate change after the time was set: drop to REFS_SET and bump. The guard looks
      at the whole phase. */
  function DropTime(cfg: Cfg, b: Backend): (r: Backend)
    ensures b.generation <= r.generation <= b.generation + 1 && r.syncDepth == b.syncDepth
    ensures r.lo == b.lo && r.rf == b.rf
  {
    if AtLeast(cfg, b, TimeSet) then Forget(b) else b
  }

  /** Stop streaming, forget the time alignment and the tune, and bump. */
  function Forget(b: Backend): (r: Backend)
    ensures b.generation <= r.generation <= b.generation + 1 && r.syncDepth == b.syncDepth
    ensures r.lo == b.lo && r.rf == b.rf
  {
    b.(streaming := false, timeSet := {}, tuned := false, tunedDirs := {}, generation := b.generation + 1)
  }

  /** 1 when an operation that calls for a bump gets one: inside a sync window it does not. */
  function BumpOutsideSync(b: Backend, wanted: bool): nat {
    if wanted && b.syncDepth <= 0 then 1 else 0
  }

  function Close(b: Backend): (r: Backend)
    ensures b.generation <= r.generation <= b.generation + 1 && r.syncDepth == b.syncDepth
    ensures r.timeSet == b.timeSet && r.tunedDirs == b.tunedDirs
    ensures r.lo == b.lo && r.rf == b.rf
  {
    if b.open then b.(streaming := false, open := false, txStreamer := false) else b
  }

  /** Forgets every setting; a re-open bumps. PA lines that cannot be driven off close it again. */
  function Open(b: Backend, hookOk: bool, paLinesOk: bool): (r: Backend)
    ensures b.generation <= r.generation <= b.generation + 1 && r.syncDepth == b.syncDepth
  {
    if b.open || !hookOk then b
    else Backend(paLinesOk, true, {}, {}, {}, false, {}, false, false, b.syncDepth, NoRf, NoLo, map[],
                 b.generation + if b.everOpened then 1 else 0)
  }

  function SetRate(cfg: Cfg, b: Backend, dir: Direction, hz: real, actual: Option<real>): (r: Backend)
    ensures b.generation <= r.generation <= b.generation + 1 && r.syncDepth == b.syncDepth
    ensures r.timeSet == b.timeSet && r.tunedDirs == b.tunedDirs
    ensures r.lo == b.lo && r.rf.last == b.rf.last
  {
    if !b.open || hz <= 0.0 || actual.None? then b
    else
      var moved := RateMoved(Rate(cfg, b, dir), actual.value);
      b.(rf := b.rf.(rate := b.rf.rate[dir := actual.value]),
         streaming := b.streaming && !(moved && dir.Rx?),
         generation := b.generation + if moved && b.tuned then 1 else 0)
  }

  /** More than one part in 10^9 (of 1 at least). */
  predicate RateMoved(was: real, a: real) {
    Abs(was - a) > 0.000000001 * Max(Abs(a), 1.0)
  }

  datatype TuneReport = TuneReport(center: real, timed: bool, cls: PhaseClass, bandChange: bool, classChanged: bool)

  /** The report of a tune as the base class completes it. */
  function Report(cfg: Cfg, b: Backend, dir: Direction, fOld: real, late: bool, h: TuneHook): TuneReport {
    var timed := h.timed && !late;
    var cls := PhaseAfterTune(cfg, dir, h.center, timed, b.lo.src, b.lo.exp);
    TuneReport(h.center, timed, cls,
               h.bandChange || FloorCrossed(cfg, fOld, h.center, dir),
               dir in b.rf.last && b.rf.last[dir].cls != cls)
  }

  /** A tune leaves the generation alone only when it was timed, of a stable class, of the class of
      the previous tune, and crossed no band edge or LO-share floor. */
  predicate NeedsBump(r: TuneReport) {
    r.bandChange || r.classChanged || !(Stable(r.cls) && r.timed)
  }

  predicate TuneAllowed(cfg: Cfg, b: Backend, f: real, result: Option<TuneHook>) {
    AtLeast(cfg, b, RefsSet) && f > 0.0 && result.Some?
  }

  function Tune(cfg: Cfg, b: Backend, dir: Direction, f: real, lo: real, fOld: real, late: bool, result: Option<TuneHook>, bump: bool): (r: Backend)
    ensures b.generation <= r.generation <= b.generation + 1 && r.syncDepth == b.syncDepth
    ensures r.timeSet == b.timeSet && b.tunedDirs <= r.tunedDirs <= b.tunedDirs + {dir}
    ensures r.lo == b.lo
  {
    if !TuneAllowed(cfg, b, f, result) then b
    else
      var r := Report(cfg, b, dir, fOld, late, result.value);
      b.(generation := b.generation + (if bump && NeedsBump(r) then 1 else 0),
         rf := Rf(b.rf.rate, b.rf.center[dir := r.center], b.rf.loOffset[dir := lo],
                  b.rf.last[dir := LastTune(r.center, lo, r.timed, r.cls)]),
         tuned := true,
         tunedDirs := b.tunedDirs + {dir})
  }

  /** A half-done change is recorded as an unknown source, so that it counts as not shared. */
  function SetLoSource(b: Backend, dir: Direction, ref: ChannelRef, src: LoSource, hook: Hook): (r: Backend)
    ensures b.generation <= r.generation <= b.generation + 1 && r.syncDepth == b.syncDepth
    ensures r.timeSet == b.timeSet && r.tunedDirs == b.tunedDirs
    ensures r.rf == b.rf
  {
    var k := (ref.device, dir);
    if !b.open || hook.Refused? then b
    else
      b.(lo := b.lo.(src := b.lo.src[k := if hook.Broke? then FromUnknown else src]),
         generation := b.generation + BumpOutsideSync(b, hook.Broke? || LoSourceOf(b.lo.src, k) != src))
  }

  function SetLoExport(b: Backend, dir: Direction, ref: ChannelRef, on: bool, hook: Hook): (r: Backend)
    ensures b.generation <= r.generation <= b.generation + 1 && r.syncDepth == b.syncDepth
    ensures r.timeSet == b.timeSet && r.tunedDirs == b.tunedDirs
    ensures r.rf == b.rf
  {
    var k := (ref.device, dir);
    if !b.open || hook.Refused? then b
    else
      b.(lo := b.lo.(exp := b.lo.exp[k := on && !hook.Broke?]),
         generation := b.generation + BumpOutsideSync(b, hook.Broke? || ExportOn(b.lo.exp, k) != on))
  }

  function SetIntDelay(b: Backend, dir: Direction, ref: ChannelRef, n: int, accepted: Option<bool>, bump: bool): (r: Backend)
    ensures b.generation <= r.generation <= b.generation + 1 && r.syncDepth == b.syncDepth
    ensures r.timeSet == b.timeSet && r.tunedDirs == b.tunedDirs
    ensures r.rf == b.rf && r.lo.src == b.lo.src && r.lo.exp == b.lo.exp
  {
    var k := (dir, ref);
    if !b.open || accepted != Some(true) then b
    else
      b.(lo := b.lo.(delay := b.lo.delay[k := n]),
         generation := b.generation + BumpOutsideSync(b, bump && DelayOf(b.lo, k) != n))
  }

  predicate StreamAllowed(cfg: Cfg, b: Backend) {
    AtLeast(cfg, b, RefsSet) && (TimeRequired(cfg) ==> TimeOk(cfg, b))
  }

  function SetClock(cfg: Cfg, b: Backend, t: Target, hookOk: bool): (r: Backend)
    ensures b.generation <= r.generation <= b.generation + 1 && r.syncDepth == b.syncDepth
    ensures r.lo == b.lo && r.rf == b.rf
  {
    if !b.open || !KnownTarget(cfg, t) then b
    else
      var b' := DropTime(cfg, b);
      if hookOk then b'.(clockSet := b'.clockSet + Targets(cfg, t)) else b'
  }

  function SetTimeSrc(cfg: Cfg, b: Backend, t: Target, hookOk: bool): (r: Backend)
    ensures b.generation <= r.generation <= b.generation + 1 && r.syncDepth == b.syncDepth
    ensures r.lo == b.lo && r.rf == b.rf
  {
    if !b.open || !KnownTarget(cfg, t) then b
    else
      var b' := DropTime(cfg, b);
      if hookOk then b'.(timeSrcSet := b'.timeSrcSet + Targets(cfg, t)) else b'
  }

  function LoadTimes(cfg: Cfg, b: Backend, devs: Option<seq<string>>, hookOk: bool): (r: Backend)
    ensures b.generation <= r.generation <= b.generation + 1 && r.syncDepth == b.syncDepth
    ensures r.lo == b.lo && r.rf == b.rf
  {
    if !AtLeast(cfg, b, RefsSet) || devs.None? || !hookOk then b
    else b.(timeSet := b.timeSet + (set d | d in devs.value), generation := b.generation + BumpOutsideSync(b, true))
  }

  function StartRx(cfg: Cfg, b: Backend, hookOk: bool): (r: Backend)
    ensures b.generation <= r.generation <= b.generation + 1 && r.syncDepth == b.syncDepth
    ensures r.timeSet == b.timeSet && r.tunedDirs == b.tunedDirs
    ensures r.lo == b.lo && r.rf == b.rf
  {
    if !StreamAllowed(cfg, b) || b.streaming || !hookOk then b else b.(streaming := true)
  }

  function SetCommandTimes(cfg: Cfg, b: Backend, t: Target, x: real): (r: Backend)
    ensures b.generation <= r.generation <= b.generation + 1 && r.syncDepth == b.syncDepth
    ensures r.timeSet == b.timeSet && r.tunedDirs == b.tunedDirs
    ensures r.lo == b.lo && r.rf == b.rf
  {
    if !b.open || !KnownTarget(cfg, t) then b
    else b.(cmdTime := b.cmdTime + map d | d in Targets(cfg, t) :: x)
  }

  function ClearCommandTimes(cfg: Cfg, b: Backend, t: Target, hookOk: bool): (r: Backend)
    ensures b.generation <= r.generation <= b.generation + 1 && r.syncDepth == b.syncDepth
    ensures r.timeSet == b.timeSet && r.tunedDirs == b.tunedDirs
    ensures r.lo == b.lo && r.rf == b.rf
  {
    if !b.open || !KnownTarget(cfg, t) || !hookOk then b else b.(cmdTime := b.cmdTime - Targets(cfg, t))
  }

  /** The state after an operation, whether it returned or raised. */
  function Apply(cfg: Cfg, b: Backend, op: Op): Backend {
    match op
    case OpOpen(hookOk, paOk) => Open(b, hookOk, paOk)
    case OpClose => Close(b)
    case OpClockSource(t, hookOk) => SetClock(cfg, b, t, hookOk)
    case OpTimeSource(t, hookOk) => SetTimeSrc(cfg, b, t, hookOk)
    case OpMasterClock(t, hz, hookOk) =>
      if !b.open || !KnownTarget(cfg, t) || hz <= 0.0 then b else DropTime(cfg, b)
    case OpTimeLoad(devs, hookOk) => LoadTimes(cfg, b, devs, hookOk)
    case OpInvalidateTime => Forget(b)
    case OpBeginSync => b.(syncDepth := b.syncDepth + 1)
    case OpEndSync => b.(syncDepth := b.syncDepth - 1)
    case OpSetRate(dir, hz, actual) => SetRate(cfg, b, dir, hz, actual)
    case OpTune(dir, f, lo, fOld, late, hook, bump) => Tune(cfg, b, dir, f, lo, fOld, late, hook, bump)
    case OpLoSource(dir, ref, src, hook) => SetLoSource(b, dir, ref, src, hook)
    case OpLoExport(dir, ref, on, hook) => SetLoExport(b, dir, ref, on, hook)
    case OpIntDelay(dir, ref, n, hook, bump) => SetIntDelay(b, dir, ref, n, hook, bump)
    case OpRxStart(hookOk) => StartRx(cfg, b, hookOk)
    case OpRxStop => b.(streaming := false)
    case OpSetCommandTime(t, x, hookOk) => SetCommandTimes(cfg, b, t, x)
    case OpClearCommandTime(t, hookOk) => ClearCommandTimes(cfg, b, t, hookOk)
  }

  function Run(cfg: Cfg, b: Backend, ops: seq<Op>): Backend
    decreases |ops|
  {
    if ops == [] then b else Run(cfg, Apply(cfg, b, ops[0]), ops[1..])
  }

  lemma {:induction false} RunAppend(cfg: Cfg, b: Backend, ops: seq<Op>, more: seq<Op>)
    ensures Run(cfg, b, ops + more) == Run(cfg, Run(cfg, b, ops), more)
    decreases |ops|
  {
    if ops == [] {
      assert [] + more == more;
    } else {
      assert (ops + more)[1..] == ops[1..] + more;
      RunAppend(cfg, Apply(cfg, b, ops[0]), ops[1..], more);
    }
  }
}
