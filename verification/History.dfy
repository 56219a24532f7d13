/** The state of a backend from the history of its calls alone: every setting reads as the last call that wrote it
    left it, and the generation counts the calls that disturbed coherence. */
module Histories {
  import opened Results
  import opened LoPlans
  import opened Backends
  import opened Coherence

  datatype Cell =
    | OpenCell
    | StreamingCell
    | TxStreamerCell
    | TunedCell
    | TunedDirCell(dir: Direction)
    | ClockCell(name: string)
    | TimeSourceCell(name: string)
    | TimeCell(name: string)
    | RateCell(dir: Direction)
    | CentreCell(dir: Direction)
    | OffsetCell(dir: Direction)
    | LastTuneCell(dir: Direction)
    | SourceCell(device: string, dir: Direction)
    | ExportCell(device: string, dir: Direction)
    | DelayCell(dir: Direction, ref: ChannelRef)
    | CommandCell(name: string)

  datatype Value = Flag(on: bool) | Hz(hz: real) | Source(src: LoSource) | Samples(n: int) | LastIs(last: Option<LastTune>) | CommandAt(at: Option<real>)

  /** The cells of the phase order; the others are settings. */
  predicate IsPhase(c: Cell) {
    c.OpenCell? || c.StreamingCell? || c.TxStreamerCell? || c.TunedCell? || c.TunedDirCell? || c.ClockCell? || c.TimeSourceCell? || c.TimeCell?
  }

  predicate ReadPhase(b: Backend, c: Cell)
    requires IsPhase(c)
  {
    match c
    case OpenCell => b.open
    case StreamingCell => b.streaming
    case TxStreamerCell => b.txStreamer
    case TunedCell => b.tuned
    case TunedDirCell(dir) => dir in b.tunedDirs
    case ClockCell(name) => name in b.clockSet
    case TimeSourceCell(name) => name in b.timeSrcSet
    case TimeCell(name) => name in b.timeSet
  }

  function ReadSetting(cfg: Cfg, b: Backend, c: Cell): Value
    requires !IsPhase(c)
  {
    match c
    case RateCell(dir) => Hz(Rate(cfg, b, dir))
    case CentreCell(dir) => Hz(TunedFreq(cfg, b, dir))
    case OffsetCell(dir) => Hz(TunedLoOffset(cfg, b, dir))
    case LastTuneCell(dir) => LastIs(if dir in b.rf.last then Some(b.rf.last[dir]) else None)
    case SourceCell(device, dir) => Source(LoSourceOf(b.lo.src, (device, dir)))
    case ExportCell(device, dir) => Flag(ExportOn(b.lo.exp, (device, dir)))
    case DelayCell(dir, ref) => Samples(DelayOf(b.lo, (dir, ref)))
    case CommandCell(name) => CommandAt(if name in b.cmdTime then Some(b.cmdTime[name]) else None)
  }

  /** What a caller reads. */
  function Read(cfg: Cfg, b: Backend, c: Cell): Value {
    if IsPhase(c) then Flag(ReadPhase(b, c)) else ReadSetting(cfg, b, c)
  }

  /** What it reads before anything is written. */
  function Unwritten(cfg: Cfg, c: Cell): Value {
    match c
    case RateCell(_) => Hz(cfg.sampleRate)
    case CentreCell(_) => Hz(cfg.centerFreq)
    case OffsetCell(_) => Hz(cfg.loOffset)
    case LastTuneCell(_) => LastIs(None)
    case SourceCell(_, _) => Source(FromInternal)
    case DelayCell(_, _) => Samples(0)
    case CommandCell(_) => CommandAt(None)
    case _ => Flag(false)
  }

  // --- what each call writes -------------------------------------------------------------------

  /** Every device has both references. */
  ghost predicate Referenced(cfg: Cfg, b: Backend) {
    forall d :: d in cfg.devices ==> d.name in b.clockSet && d.name in b.timeSrcSet
  }

  ghost predicate Aligned(cfg: Cfg, b: Backend) {
    cfg.devices != [] && forall d :: d in cfg.devices ==> d.name in b.timeSet
  }

  ghost predicate Ready(cfg: Cfg, b: Backend) {
    b.open && Referenced(cfg, b)
  }

  /** There is a time alignment, a tune or a stream to lose. */
  ghost predicate Holds(cfg: Cfg, b: Backend) {
    b.open && (b.streaming || (Referenced(cfg, b) && (b.tuned || Aligned(cfg, b))))
  }

  ghost predicate Names(cfg: Cfg, t: Target, name: string) {
    if t.None? then exists d :: d in cfg.devices && d.name == name else name == t.value
  }

  ghost predicate Known(cfg: Cfg, t: Target) {
    t.Some? ==> exists d :: d in cfg.devices && d.name == t.value
  }

  /** The tune went through: what it is remembered as. */
  ghost function Remembered(cfg: Cfg, b: Backend, op: Op): LastTune
    requires op.OpTune? && op.result.Some?
  {
    var h := op.result.value;
    var timed := h.timed && !op.late;
    LastTune(h.center, op.lo, timed, PhaseAfterTune(cfg, op.dir, h.center, timed, b.lo.src, b.lo.exp))
  }

  ghost predicate TimeLost(cfg: Cfg, b: Backend, op: Op) {
    match op
    case OpClockSource(t, _) => b.open && Known(cfg, t) && Holds(cfg, b)
    case OpTimeSource(t, _) => b.open && Known(cfg, t) && Holds(cfg, b)
    case OpMasterClock(t, hz, _) => b.open && Known(cfg, t) && hz > 0.0 && Holds(cfg, b)
    case OpInvalidateTime => true
    case _ => false
  }

  ghost predicate RateSet(b: Backend, op: Op) {
    op.OpSetRate? && b.open && op.hz > 0.0 && op.actual.Some?
  }

  ghost predicate TuneDone(cfg: Cfg, b: Backend, op: Op) {
    op.OpTune? && Ready(cfg, b) && op.f > 0.0 && op.result.Some?
  }

  ghost predicate Opened(b: Backend, op: Op) {
    op.OpOpen? && !b.open && op.hookOk
  }

  ghost function WrittenPhase(cfg: Cfg, b: Backend, op: Op, c: Cell): Option<bool>
    requires IsPhase(c)
  {
    if Opened(b, op) then Some(c.OpenCell? && op.paLinesOk)
    else if TimeLost(cfg, b, op) && (c.TimeCell? || c.TunedCell? || c.TunedDirCell? || c.StreamingCell?) then Some(false)
    else match c
      case OpenCell => if op.OpClose? then Some(false) else None
      case StreamingCell =>
        if op.OpRxStop? || (op.OpClose? && b.open) then Some(false)
        else if RateSet(b, op) && op.dir == Rx && !CloseRates(Rate(cfg, b, Rx), op.actual.value) then Some(false)
        else if op.OpRxStart? && op.hookOk && Ready(cfg, b) && (|cfg.devices| > 1 || !cfg.syncMethodNone ==> Aligned(cfg, b)) then Some(true)
        else None
      case TxStreamerCell => if op.OpClose? && b.open then Some(false) else None
      case TunedCell => if TuneDone(cfg, b, op) then Some(true) else None
      case TunedDirCell(dir) => if TuneDone(cfg, b, op) && op.dir == dir then Some(true) else None
      case ClockCell(name) => if op.OpClockSource? && b.open && Known(cfg, op.target) && op.hookOk && Names(cfg, op.target, name) then Some(true) else None
      case TimeSourceCell(name) => if op.OpTimeSource? && b.open && Known(cfg, op.target) && op.hookOk && Names(cfg, op.target, name) then Some(true) else None
      case TimeCell(name) => if op.OpTimeLoad? && Ready(cfg, b) && op.devs.Some? && op.hookOk && name in op.devs.value then Some(true) else None
  }

  ghost function WrittenSetting(cfg: Cfg, b: Backend, op: Op, c: Cell): Option<Value>
    requires !IsPhase(c)
  {
    if Opened(b, op) then Some(Unwritten(cfg, c))
    else match c
      case RateCell(dir) => if RateSet(b, op) && op.dir == dir then Some(Hz(op.actual.value)) else None
      case CentreCell(dir) => if TuneDone(cfg, b, op) && op.dir == dir then Some(Hz(op.result.value.center)) else None
      case OffsetCell(dir) => if TuneDone(cfg, b, op) && op.dir == dir then Some(Hz(op.lo)) else None
      case LastTuneCell(dir) => if TuneDone(cfg, b, op) && op.dir == dir then Some(LastIs(Some(Remembered(cfg, b, op)))) else None
      case SourceCell(device, dir) =>
        if op.OpLoSource? && b.open && op.hook != Refused && op.ref.device == device && op.dir == dir
        then Some(Source(if op.hook == Broke then FromUnknown else op.src)) else None
      case ExportCell(device, dir) =>
        if op.OpLoExport? && b.open && op.hook != Refused && op.ref.device == device && op.dir == dir
        then Some(Flag(op.on && op.hook == Done)) else None
      case DelayCell(dir, ref) =>
        if op.OpIntDelay? && b.open && op.accepted == Some(true) && op.ref == ref && op.dir == dir then Some(Samples(op.n)) else None
      case CommandCell(name) =>
        if op.OpSetCommandTime? && b.open && Known(cfg, op.target) && Names(cfg, op.target, name) then Some(CommandAt(Some(op.t)))
        else if op.OpClearCommandTime? && b.open && Known(cfg, op.target) && op.hookOk && Names(cfg, op.target, name) then Some(CommandAt(None))
        else None
  }

  /** What a call writes to a cell, if it writes it. */
  ghost function Written(cfg: Cfg, b: Backend, op: Op, c: Cell): Option<Value> {
    if !IsPhase(c) then WrittenSetting(cfg, b, op, c)
    else match WrittenPhase(cfg, b, op, c) case Some(on) => Some(Flag(on)) case None => None
  }

  // --- the guards in these terms ---------------------------------------------------------------

  lemma NameIn(cfg: Cfg, name: string)
    ensures name in DeviceNames(cfg) <==> exists d :: d in cfg.devices && d.name == name
  {
    if name in DeviceNames(cfg) {
      var i :| 0 <= i < |cfg.devices| && cfg.devices[i].name == name;
      assert cfg.devices[i] in cfg.devices;
    }
    if d :| d in cfg.devices && d.name == name {
      var i :| 0 <= i < |cfg.devices| && cfg.devices[i] == d;
    }
  }

  lemma NamesWithin(cfg: Cfg, names: set<string>)
    ensures DeviceNames(cfg) <= names <==> forall d :: d in cfg.devices ==> d.name in names
  {
    if DeviceNames(cfg) <= names {
      forall d | d in cfg.devices ensures d.name in names { NameIn(cfg, d.name); }
    } else {
      var name :| name in DeviceNames(cfg) && name !in names;
      NameIn(cfg, name);
    }
  }

  lemma PhasesAre(cfg: Cfg, b: Backend)
    requires Inv(cfg, b)
    ensures AtLeast(cfg, b, RefsSet) <==> Ready(cfg, b)
    ensures AtLeast(cfg, b, TimeSet) <==> Holds(cfg, b)
    ensures StreamAllowed(cfg, b) <==> Ready(cfg, b) && (|cfg.devices| > 1 || !cfg.syncMethodNone ==> Aligned(cfg, b))
  {
    NamesWithin(cfg, b.clockSet);
    NamesWithin(cfg, b.timeSrcSet);
    NamesWithin(cfg, b.timeSet);
    hide DeviceNames;
  }

  lemma TargetsAre(cfg: Cfg, t: Target, name: string)
    ensures KnownTarget(cfg, t) <==> Known(cfg, t)
    ensures name in Targets(cfg, t) <==> Names(cfg, t, name)
  {
    NameIn(cfg, name);
    if t.Some? { NameIn(cfg, t.value); }
    hide DeviceNames;
  }

  // --- one call --------------------------------------------------------------------------------

  ghost predicate PhaseWritten(cfg: Cfg, b: Backend, op: Op, c: Cell)
    requires IsPhase(c)
  {
    ReadPhase(Apply(cfg, b, op), c) == match WrittenPhase(cfg, b, op, c) case Some(on) => on case None => ReadPhase(b, c)
  }

  ghost predicate SettingWritten(cfg: Cfg, b: Backend, op: Op, c: Cell)
    requires !IsPhase(c)
  {
    ReadSetting(cfg, Apply(cfg, b, op), c) == match WrittenSetting(cfg, b, op, c) case Some(v) => v case None => ReadSetting(cfg, b, c)
  }

  /** A reference change past its argument checks, in these terms. */
  lemma ReferenceIs(cfg: Cfg, b: Backend, op: Op, name: string)
    requires Inv(cfg, b) && (op.OpClockSource? || op.OpTimeSource? || op.OpMasterClock?)
    ensures var goes := b.open && Known(cfg, op.target) && (op.OpMasterClock? ==> op.hz > 0.0);
            var kept := if goes && Holds(cfg, b) then Forget(b) else b;
            var b' := Apply(cfg, b, op);
            && b' == kept.(clockSet := b'.clockSet, timeSrcSet := b'.timeSrcSet)
            && (name in b'.clockSet <==> name in b.clockSet || (goes && op.OpClockSource? && op.hookOk && Names(cfg, op.target, name)))
            && (name in b'.timeSrcSet <==> name in b.timeSrcSet || (goes && op.OpTimeSource? && op.hookOk && Names(cfg, op.target, name)))
  {
    PhasesAre(cfg, b);
    TargetsAre(cfg, op.target, name);
    hide AtLeast, Holds, KnownTarget, Known, Targets, Names, Inv;
  }

  lemma ReferenceNames(cfg: Cfg, b: Backend, op: Op, c: Cell)
    requires Inv(cfg, b) && (op.OpClockSource? || op.OpTimeSource? || op.OpMasterClock?) && (c.ClockCell? || c.TimeSourceCell?)
    ensures PhaseWritten(cfg, b, op, c)
  {
    ReferenceIs(cfg, b, op, c.name);
    hide Apply, Holds, Known, Names, Ready, Aligned, CloseRates, Inv, Remembered, PhaseAfterTune, ReadSetting, WrittenSetting;
  }

  lemma ReferenceLosses(cfg: Cfg, b: Backend, op: Op, c: Cell)
    requires Inv(cfg, b) && (op.OpClockSource? || op.OpTimeSource? || op.OpMasterClock?) && (c.OpenCell? || c.StreamingCell? || c.TxStreamerCell? || c.TunedCell? || c.TunedDirCell? || c.TimeCell?)
    ensures PhaseWritten(cfg, b, op, c)
  {
    ReferenceIs(cfg, b, op, "");
    hide Apply, Holds, Known, Names, Ready, Aligned, CloseRates, Inv, Remembered, PhaseAfterTune, ReadSetting, WrittenSetting;
  }

  lemma ReferencePhases(cfg: Cfg, b: Backend, op: Op, c: Cell)
    requires Inv(cfg, b) && (op.OpClockSource? || op.OpTimeSource? || op.OpMasterClock?) && IsPhase(c)
    ensures PhaseWritten(cfg, b, op, c)
  {
    hide *;
    if c.ClockCell? || c.TimeSourceCell? {
      ReferenceNames(cfg, b, op, c);
    } else {
      IsPhaseCell(c);
      ReferenceLosses(cfg, b, op, c);
    }
  }

  lemma IsPhaseCell(c: Cell)
    requires IsPhase(c)
    ensures c.OpenCell? || c.StreamingCell? || c.TxStreamerCell? || c.TunedCell? || c.TunedDirCell? || c.ClockCell? || c.TimeSourceCell? || c.TimeCell?
  {
  }

  lemma ReferenceSettings(cfg: Cfg, b: Backend, op: Op, c: Cell)
    requires Inv(cfg, b) && (op.OpClockSource? || op.OpTimeSource? || op.OpMasterClock?) && !IsPhase(c)
    ensures SettingWritten(cfg, b, op, c)
  {
    ReferenceIs(cfg, b, op, "");
    hide LoSourceOf, ExportOn, DelayOf, Apply, Holds, Known, Names, Ready, Aligned, CloseRates, Inv, Remembered, PhaseAfterTune, ReadPhase, WrittenPhase;
  }

  lemma TuneIs(cfg: Cfg, b: Backend, op: Op)
    requires Inv(cfg, b) && op.OpTune?
    ensures var b' := Apply(cfg, b, op);
            if !TuneDone(cfg, b, op) then b' == b
            else b' == b.(generation := b'.generation, tuned := true, tunedDirs := b.tunedDirs + {op.dir},
                          rf := Rf(b.rf.rate, b.rf.center[op.dir := op.result.value.center], b.rf.loOffset[op.dir := op.lo],
                                   b.rf.last[op.dir := Remembered(cfg, b, op)]))
  {
    PhasesAre(cfg, b);
    hide AtLeast, Ready, PhaseAfterTune, Inv, FloorCrossed, NeedsBump;
  }

  lemma TunePhases(cfg: Cfg, b: Backend, op: Op, c: Cell)
    requires Inv(cfg, b) && op.OpTune? && IsPhase(c)
    ensures PhaseWritten(cfg, b, op, c)
  {
    TuneIs(cfg, b, op);
    hide Apply, Holds, Known, Names, Ready, Aligned, CloseRates, Inv, Remembered, PhaseAfterTune, ReadSetting, WrittenSetting;
  }

  lemma TuneSettings(cfg: Cfg, b: Backend, op: Op, c: Cell)
    requires Inv(cfg, b) && op.OpTune? && !IsPhase(c)
    ensures SettingWritten(cfg, b, op, c)
  {
    TuneIs(cfg, b, op);
    hide LoSourceOf, ExportOn, DelayOf, Apply, Holds, Known, Names, Ready, Aligned, CloseRates, Inv, Remembered, PhaseAfterTune, ReadPhase, WrittenPhase;
  }

  lemma TimedIs(cfg: Cfg, b: Backend, op: Op)
    requires Inv(cfg, b) && (op.OpTimeLoad? || op.OpRxStart? || op.OpRxStop? || op.OpInvalidateTime?)
    ensures var b' := Apply(cfg, b, op);
            && (op.OpInvalidateTime? ==> b' == Forget(b))
            && (op.OpRxStop? ==> b' == b.(streaming := false))
            && (op.OpRxStart? ==> b' == b.(streaming := b.streaming || (op.hookOk && Ready(cfg, b) && (|cfg.devices| > 1 || !cfg.syncMethodNone ==> Aligned(cfg, b)))))
            && (op.OpTimeLoad? ==>
                  b' == b.(generation := b'.generation,
                           timeSet := b.timeSet + if Ready(cfg, b) && op.devs.Some? && op.hookOk then set d | d in op.devs.value else {}))
  {
    PhasesAre(cfg, b);
    hide AtLeast, Ready, Aligned, StreamAllowed, Inv;
  }

  lemma TimedPhases(cfg: Cfg, b: Backend, op: Op, c: Cell)
    requires Inv(cfg, b) && (op.OpTimeLoad? || op.OpRxStart? || op.OpRxStop? || op.OpInvalidateTime?) && IsPhase(c)
    ensures PhaseWritten(cfg, b, op, c)
  {
    TimedIs(cfg, b, op);
    hide Apply, Holds, Known, Names, Ready, Aligned, CloseRates, Inv, Remembered, PhaseAfterTune, ReadSetting, WrittenSetting;
  }

  lemma TimedSettings(cfg: Cfg, b: Backend, op: Op, c: Cell)
    requires Inv(cfg, b) && (op.OpTimeLoad? || op.OpRxStart? || op.OpRxStop? || op.OpInvalidateTime?) && !IsPhase(c)
    ensures SettingWritten(cfg, b, op, c)
  {
    TimedIs(cfg, b, op);
    hide LoSourceOf, ExportOn, DelayOf, Apply, Holds, Known, Names, Ready, Aligned, CloseRates, Inv, Remembered, PhaseAfterTune, ReadPhase, WrittenPhase;
  }

  lemma CommandIs(cfg: Cfg, b: Backend, op: Op, name: string)
    requires op.OpSetCommandTime? || op.OpClearCommandTime?
    ensures var b' := Apply(cfg, b, op);
            var goes := b.open && Known(cfg, op.target) && Names(cfg, op.target, name);
            && b' == b.(cmdTime := b'.cmdTime)
            && (goes && op.OpSetCommandTime? ==> name in b'.cmdTime && b'.cmdTime[name] == op.t)
            && (goes && op.OpClearCommandTime? && op.hookOk ==> name !in b'.cmdTime)
            && (!goes || (op.OpClearCommandTime? && !op.hookOk) ==>
                  (name in b'.cmdTime <==> name in b.cmdTime) && (name in b.cmdTime ==> b'.cmdTime[name] == b.cmdTime[name]))
  {
    TargetsAre(cfg, op.target, name);
    hide KnownTarget, Known, Targets, Names;
  }

  lemma CommandPhases(cfg: Cfg, b: Backend, op: Op, c: Cell)
    requires (op.OpSetCommandTime? || op.OpClearCommandTime?) && IsPhase(c)
    ensures PhaseWritten(cfg, b, op, c)
  {
    CommandIs(cfg, b, op, "");
    hide Apply, Holds, Known, Names, Ready, Aligned, CloseRates, Remembered, PhaseAfterTune, ReadSetting, WrittenSetting;
  }

  lemma CommandSettings(cfg: Cfg, b: Backend, op: Op, c: Cell)
    requires (op.OpSetCommandTime? || op.OpClearCommandTime?) && !IsPhase(c)
    ensures SettingWritten(cfg, b, op, c)
  {
    CommandIs(cfg, b, op, if c.CommandCell? then c.name else "");
    hide LoSourceOf, ExportOn, DelayOf, Apply, Holds, Known, Names, Ready, Aligned, CloseRates, Remembered, PhaseAfterTune, ReadPhase, WrittenPhase;
  }

  lemma RateIs(cfg: Cfg, b: Backend, op: Op)
    requires op.OpSetRate?
    ensures var b' := Apply(cfg, b, op);
            if !RateSet(b, op) then b' == b
            else b' == b.(generation := b'.generation, rf := b.rf.(rate := b.rf.rate[op.dir := op.actual.value]),
                          streaming := b.streaming && (op.dir == Rx ==> CloseRates(Rate(cfg, b, Rx), op.actual.value)))
  {
    if op.actual.Some? { RateMovedExactly(Rate(cfg, b, op.dir), op.actual.value); }
    hide CloseRates, RateMoved;
  }

  lemma RatePhases(cfg: Cfg, b: Backend, op: Op, c: Cell)
    requires op.OpSetRate? && IsPhase(c)
    ensures PhaseWritten(cfg, b, op, c)
  {
    RateIs(cfg, b, op);
    hide Apply, Holds, Known, Names, Ready, Aligned, CloseRates, Remembered, PhaseAfterTune, ReadSetting, WrittenSetting, Rate;
  }

  lemma RateSettings(cfg: Cfg, b: Backend, op: Op, c: Cell)
    requires op.OpSetRate? && !IsPhase(c)
    ensures SettingWritten(cfg, b, op, c)
  {
    RateIs(cfg, b, op);
    hide LoSourceOf, ExportOn, DelayOf, Apply, Holds, Known, Names, Ready, Aligned, CloseRates, Remembered, PhaseAfterTune, ReadPhase, WrittenPhase;
  }

  lemma LoPhases(cfg: Cfg, b: Backend, op: Op, c: Cell)
    requires (op.OpLoSource? || op.OpLoExport? || op.OpIntDelay?) && IsPhase(c)
    ensures PhaseWritten(cfg, b, op, c)
  {
    hide Holds, Known, Names, Ready, Aligned, CloseRates, Remembered, PhaseAfterTune, ReadSetting, WrittenSetting, Close, Open, SetRate, Tune, SetClock, SetTimeSrc, DropTime, LoadTimes, StartRx, SetCommandTimes, ClearCommandTimes;
  }

  lemma SourceSettings(cfg: Cfg, b: Backend, op: Op, c: Cell)
    requires op.OpLoSource? && !IsPhase(c)
    ensures SettingWritten(cfg, b, op, c)
  {
    hide SetLoExport, SetIntDelay, Holds, Known, Names, Ready, Aligned, CloseRates, Remembered, PhaseAfterTune, ReadPhase, WrittenPhase, Close, Open, SetRate, Tune, SetClock, SetTimeSrc, DropTime, LoadTimes, StartRx, SetCommandTimes, ClearCommandTimes;
  }

  lemma ExportSettings(cfg: Cfg, b: Backend, op: Op, c: Cell)
    requires op.OpLoExport? && !IsPhase(c)
    ensures SettingWritten(cfg, b, op, c)
  {
    hide SetLoSource, SetIntDelay, Holds, Known, Names, Ready, Aligned, CloseRates, Remembered, PhaseAfterTune, ReadPhase, WrittenPhase, Close, Open, SetRate, Tune, SetClock, SetTimeSrc, DropTime, LoadTimes, StartRx, SetCommandTimes, ClearCommandTimes;
  }

  lemma DelaySettings(cfg: Cfg, b: Backend, op: Op, c: Cell)
    requires op.OpIntDelay? && !IsPhase(c)
    ensures SettingWritten(cfg, b, op, c)
  {
    hide SetLoSource, SetLoExport, Holds, Known, Names, Ready, Aligned, CloseRates, Remembered, PhaseAfterTune, ReadPhase, WrittenPhase, Close, Open, SetRate, Tune, SetClock, SetTimeSrc, DropTime, LoadTimes, StartRx, SetCommandTimes, ClearCommandTimes;
  }

  lemma OpenPhases(cfg: Cfg, b: Backend, op: Op, c: Cell)
    requires (op.OpOpen? || op.OpClose? || op.OpBeginSync? || op.OpEndSync?) && IsPhase(c)
    ensures PhaseWritten(cfg, b, op, c)
  {
    hide Holds, Known, Names, Ready, Aligned, CloseRates, Remembered, PhaseAfterTune, ReadSetting, WrittenSetting, SetRate, Tune, SetLoSource, SetLoExport, SetIntDelay, SetClock, SetTimeSrc, DropTime, LoadTimes, StartRx, SetCommandTimes, ClearCommandTimes;
  }

  lemma OpenSettings(cfg: Cfg, b: Backend, op: Op, c: Cell)
    requires (op.OpOpen? || op.OpClose? || op.OpBeginSync? || op.OpEndSync?) && !IsPhase(c)
    ensures SettingWritten(cfg, b, op, c)
  {
    hide Holds, Known, Names, Ready, Aligned, CloseRates, Remembered, PhaseAfterTune, ReadPhase, WrittenPhase, SetRate, Tune, SetLoSource, SetLoExport, SetIntDelay, SetClock, SetTimeSrc, DropTime, LoadTimes, StartRx, SetCommandTimes, ClearCommandTimes;
  }

  lemma CallPhases(cfg: Cfg, b: Backend, op: Op, c: Cell)
    requires Inv(cfg, b) && IsPhase(c)
    ensures PhaseWritten(cfg, b, op, c)
  {
    hide *;
    match op
    case OpClockSource(_, _) => ReferencePhases(cfg, b, op, c);
    case OpTimeSource(_, _) => ReferencePhases(cfg, b, op, c);
    case OpMasterClock(_, _, _) => ReferencePhases(cfg, b, op, c);
    case OpSetRate(_, _, _) => RatePhases(cfg, b, op, c);
    case OpTune(_, _, _, _, _, _, _) => TunePhases(cfg, b, op, c);
    case OpTimeLoad(_, _) => TimedPhases(cfg, b, op, c);
    case OpRxStart(_) => TimedPhases(cfg, b, op, c);
    case OpRxStop => TimedPhases(cfg, b, op, c);
    case OpInvalidateTime => TimedPhases(cfg, b, op, c);
    case OpSetCommandTime(_, _, _) => CommandPhases(cfg, b, op, c);
    case OpClearCommandTime(_, _) => CommandPhases(cfg, b, op, c);
    case OpLoSource(_, _, _, _) => LoPhases(cfg, b, op, c);
    case OpLoExport(_, _, _, _) => LoPhases(cfg, b, op, c);
    case OpIntDelay(_, _, _, _, _) => LoPhases(cfg, b, op, c);
    case _ => OpenPhases(cfg, b, op, c);
  }

  lemma CallSettings(cfg: Cfg, b: Backend, op: Op, c: Cell)
    requires Inv(cfg, b) && !IsPhase(c)
    ensures SettingWritten(cfg, b, op, c)
  {
    hide *;
    match op
    case OpClockSource(_, _) => ReferenceSettings(cfg, b, op, c);
    case OpTimeSource(_, _) => ReferenceSettings(cfg, b, op, c);
    case OpMasterClock(_, _, _) => ReferenceSettings(cfg, b, op, c);
    case OpSetRate(_, _, _) => RateSettings(cfg, b, op, c);
    case OpTune(_, _, _, _, _, _, _) => TuneSettings(cfg, b, op, c);
    case OpTimeLoad(_, _) => TimedSettings(cfg, b, op, c);
    case OpRxStart(_) => TimedSettings(cfg, b, op, c);
    case OpRxStop => TimedSettings(cfg, b, op, c);
    case OpInvalidateTime => TimedSettings(cfg, b, op, c);
    case OpSetCommandTime(_, _, _) => CommandSettings(cfg, b, op, c);
    case OpClearCommandTime(_, _) => CommandSettings(cfg, b, op, c);
    case OpLoSource(_, _, _, _) => SourceSettings(cfg, b, op, c);
    case OpLoExport(_, _, _, _) => ExportSettings(cfg, b, op, c);
    case OpIntDelay(_, _, _, _, _) => DelaySettings(cfg, b, op, c);
    case _ => OpenSettings(cfg, b, op, c);
  }

  /** A call writes what the table says and leaves every other cell. */
  lemma {:induction false} CallWrites(cfg: Cfg, b: Backend, op: Op, c: Cell)
    requires Inv(cfg, b)
    ensures Read(cfg, Apply(cfg, b, op), c) == match Written(cfg, b, op, c) case Some(v) => v case None => Read(cfg, b, c)
  {
    hide Apply, Inv, ReadPhase, ReadSetting, WrittenPhase, WrittenSetting, IsPhase;
    if IsPhase(c) {
      CallPhases(cfg, b, op, c);
    } else {
      CallSettings(cfg, b, op, c);
    }
  }

  // --- whole histories -------------------------------------------------------------------------

  lemma Prefixes<T>(s: seq<T>, i: nat)
    requires i < |s| - 1
    ensures s[..|s| - 1][..i] == s[..i] && s[..|s| - 1][i] == s[i]
  {
  }

  /** What the call at position i writes to a cell. */
  ghost function WrittenAt(cfg: Cfg, ops: seq<Op>, i: nat, c: Cell): Option<Value>
    requires i < |ops|
  {
    Written(cfg, Run(cfg, Fresh, ops[..i]), ops[i], c)
  }

  lemma RunLast(cfg: Cfg, ops: seq<Op>)
    requires ops != []
    ensures Run(cfg, Fresh, ops) == Apply(cfg, Run(cfg, Fresh, ops[..|ops| - 1]), ops[|ops| - 1])
  {
    var init, last := ops[..|ops| - 1], ops[|ops| - 1];
    assert ops == init + [last];
    RunAppend(cfg, Fresh, init, [last]);
    hide Apply;
    var b := Run(cfg, Fresh, init);
    assert Run(cfg, b, [last]) == Apply(cfg, b, last) by { assert [last][1..] == []; }
  }

  /** The call at position i is the last that wrote the cell. */
  ghost predicate LastWrite(cfg: Cfg, ops: seq<Op>, i: nat, c: Cell)
    requires i < |ops|
  {
    WrittenAt(cfg, ops, i, c).Some? && Untouched(cfg, ops, i + 1, c)
  }

  /** No call from position i on wrote the cell. */
  ghost predicate Untouched(cfg: Cfg, ops: seq<Op>, i: nat, c: Cell) {
    forall j :: i <= j < |ops| ==> WrittenAt(cfg, ops, j, c).None?
  }

  /** In every history a cell reads as the last call that wrote it left it. */
  lemma {:induction false} LastWriteWins(cfg: Cfg, ops: seq<Op>, i: nat, c: Cell)
    requires i < |ops| && LastWrite(cfg, ops, i, c)
    ensures Read(cfg, Run(cfg, Fresh, ops), c) == WrittenAt(cfg, ops, i, c).value
    decreases |ops|
  {
    hide Run, Read, WrittenAt;
    LastCall(cfg, ops, c);
    var n := |ops| - 1;
    if i < n {
      EarlierCall(cfg, ops, i, c);
      StillUntouched(cfg, ops, i + 1, c);
      LastWriteWins(cfg, ops[..n], i, c);
    }
  }

  /** A cell no call wrote reads as configured. */
  lemma {:induction false} UnwrittenReads(cfg: Cfg, ops: seq<Op>, c: Cell)
    requires Untouched(cfg, ops, 0, c)
    ensures Read(cfg, Run(cfg, Fresh, ops), c) == Unwritten(cfg, c)
    decreases |ops|
  {
    if ops == [] {
      FreshReads(cfg, c);
    } else {
      hide Run, Read, WrittenAt, Unwritten;
      LastCall(cfg, ops, c);
      StillUntouched(cfg, ops, 0, c);
      UnwrittenReads(cfg, ops[..|ops| - 1], c);
    }
  }

  lemma StillUntouched(cfg: Cfg, ops: seq<Op>, i: nat, c: Cell)
    requires ops != [] && Untouched(cfg, ops, i, c)
    ensures Untouched(cfg, ops[..|ops| - 1], i, c)
  {
    hide WrittenAt;
    var init := ops[..|ops| - 1];
    forall j | i <= j < |init| ensures WrittenAt(cfg, init, j, c).None? {
      EarlierCall(cfg, ops, j, c);
    }
  }

  lemma EarlierCall(cfg: Cfg, ops: seq<Op>, i: nat, c: Cell)
    requires i < |ops| - 1
    ensures WrittenAt(cfg, ops[..|ops| - 1], i, c) == WrittenAt(cfg, ops, i, c)
  {
    hide Written, Run;
    Prefixes(ops, i);
  }

  lemma LastCall(cfg: Cfg, ops: seq<Op>, c: Cell)
    requires ops != []
    ensures var n := |ops| - 1;
            Read(cfg, Run(cfg, Fresh, ops), c)
            == match WrittenAt(cfg, ops, n, c) case Some(v) => v case None => Read(cfg, Run(cfg, Fresh, ops[..n]), c)
  {
    hide Apply, Written, Inv, Read, Run;
    var init := ops[..|ops| - 1];
    FreshInv(cfg);
    RunKeepsInv(cfg, Fresh, init);
    RunLast(cfg, ops);
    CallWrites(cfg, Run(cfg, Fresh, init), ops[|ops| - 1], c);
  }

  lemma FreshInv(cfg: Cfg)
    ensures Inv(cfg, Fresh)
  {
  }

  lemma FreshReads(cfg: Cfg, c: Cell)
    ensures Read(cfg, Run(cfg, Fresh, []), c) == Unwritten(cfg, c)
  {
  }

  // --- the generation --------------------------------------------------------------------------

  /** A tune that may have moved phases: not timed, of no stable class or of another class than before, or across a
      band edge or an LO-share floor. */
  ghost predicate Moves(cfg: Cfg, b: Backend, op: Op)
    requires op.OpTune? && op.result.Some?
  {
    var now := Remembered(cfg, b, op);
    || !now.timed || now.cls == RandomPhase || now.cls == Ambiguous180
    || (op.dir in b.rf.last && b.rf.last[op.dir].cls != now.cls)
    || op.result.value.bandChange || FloorCrossed(cfg, op.fOld, now.fc, op.dir)
  }

  /** The call disturbs coherence: a re-open, time lost or loaded, a rate moved after a tune, a tune that moves
      phases, an LO or delay setting changed; time loads and settings count outside sync windows only. */
  ghost predicate Disturbs(cfg: Cfg, b: Backend, op: Op) {
    match op
    case OpOpen(_, _) => Opened(b, op) && b.everOpened
    case OpSetRate(dir, _, actual) => RateSet(b, op) && b.tuned && !CloseRates(Rate(cfg, b, dir), actual.value)
    case OpTune(_, _, _, _, _, _, bump) => bump && TuneDone(cfg, b, op) && Moves(cfg, b, op)
    case OpTimeLoad(devs, hookOk) => b.syncDepth <= 0 && Ready(cfg, b) && devs.Some? && hookOk
    case OpLoSource(dir, ref, src, hook) =>
      b.syncDepth <= 0 && b.open && (hook == Broke || (hook == Done && Read(cfg, b, SourceCell(ref.device, dir)) != Source(src)))
    case OpLoExport(dir, ref, on, hook) =>
      b.syncDepth <= 0 && b.open && (hook == Broke || (hook == Done && Read(cfg, b, ExportCell(ref.device, dir)) != Flag(on)))
    case OpIntDelay(dir, ref, n, accepted, bump) =>
      b.syncDepth <= 0 && b.open && bump && accepted == Some(true) && Read(cfg, b, DelayCell(dir, ref)) != Samples(n)
    case _ => TimeLost(cfg, b, op)
  }

  ghost predicate CountsIt(cfg: Cfg, b: Backend, op: Op) {
    && Apply(cfg, b, op).generation == b.generation + (if Disturbs(cfg, b, op) then 1 else 0)
    && Apply(cfg, b, op).syncDepth == b.syncDepth + (if op.OpBeginSync? then 1 else if op.OpEndSync? then -1 else 0)
    && (Apply(cfg, b, op).everOpened <==> b.everOpened || Opened(b, op))
  }

  lemma ReferenceCounts(cfg: Cfg, b: Backend, op: Op)
    requires Inv(cfg, b) && (op.OpClockSource? || op.OpTimeSource? || op.OpMasterClock? || op.OpTimeLoad? || op.OpInvalidateTime?)
    ensures CountsIt(cfg, b, op)
  {
    PhasesAre(cfg, b);
    if op.OpClockSource? || op.OpTimeSource? || op.OpMasterClock? { TargetsAre(cfg, op.target, ""); }
    hide AtLeast, Ready, Holds, KnownTarget, Known, Targets, Inv;
  }

  lemma RateCounts(cfg: Cfg, b: Backend, op: Op)
    requires op.OpSetRate?
    ensures CountsIt(cfg, b, op)
  {
    if op.actual.Some? { RateMovedExactly(Rate(cfg, b, op.dir), op.actual.value); }
    hide Close, Open, Tune, SetLoSource, SetLoExport, SetIntDelay, SetClock, SetTimeSrc, DropTime, LoadTimes, StartRx, SetCommandTimes, ClearCommandTimes, Forget, KnownTarget, Holds, Known, Ready, CloseRates, RateMoved, Remembered, FloorCrossed, Read;
  }

  lemma MovesExactly(cfg: Cfg, b: Backend, op: Op)
    requires op.OpTune? && op.result.Some?
    ensures NeedsBump(Report(cfg, b, op.dir, op.fOld, op.late, op.result.value)) <==> Moves(cfg, b, op)
  {
    hide FloorCrossed, PhaseAfterTune;
  }

  lemma TuneDisturbs(cfg: Cfg, b: Backend, op: Op)
    requires op.OpTune?
    ensures Disturbs(cfg, b, op) <==> op.bump && TuneDone(cfg, b, op) && Moves(cfg, b, op)
  {
    hide TuneDone, Moves;
  }

  lemma TuneGeneration(cfg: Cfg, b: Backend, op: Op)
    requires op.OpTune?
    ensures var b' := Apply(cfg, b, op);
            && b'.syncDepth == b.syncDepth && b'.everOpened == b.everOpened
            && b'.generation == b.generation + if op.bump && AtLeast(cfg, b, RefsSet) && op.f > 0.0 && op.result.Some?
                                                  && NeedsBump(Report(cfg, b, op.dir, op.fOld, op.late, op.result.value)) then 1 else 0
  {
    hide AtLeast, NeedsBump, Report;
  }

  lemma TuneCounts(cfg: Cfg, b: Backend, op: Op)
    requires Inv(cfg, b) && op.OpTune?
    ensures CountsIt(cfg, b, op)
  {
    PhasesAre(cfg, b);
    TuneGeneration(cfg, b, op);
    TuneDisturbs(cfg, b, op);
    if op.result.Some? { MovesExactly(cfg, b, op); }
    hide Apply, Disturbs, Moves, NeedsBump, Report, Ready, Holds, AtLeast, Inv, StreamAllowed, Aligned;
  }

  lemma SourceCounts(cfg: Cfg, b: Backend, op: Op)
    requires op.OpLoSource?
    ensures CountsIt(cfg, b, op)
  {
    hide SetLoExport, SetIntDelay, Close, Open, SetRate, Tune, SetClock, SetTimeSrc, DropTime, LoadTimes, StartRx, SetCommandTimes, ClearCommandTimes, Forget, KnownTarget, Holds, Known, Ready, CloseRates, Remembered, FloorCrossed;
  }

  lemma ExportCounts(cfg: Cfg, b: Backend, op: Op)
    requires op.OpLoExport?
    ensures CountsIt(cfg, b, op)
  {
    hide SetLoSource, SetIntDelay, Close, Open, SetRate, Tune, SetClock, SetTimeSrc, DropTime, LoadTimes, StartRx, SetCommandTimes, ClearCommandTimes, Forget, KnownTarget, Holds, Known, Ready, CloseRates, Remembered, FloorCrossed;
  }

  lemma DelayCounts(cfg: Cfg, b: Backend, op: Op)
    requires op.OpIntDelay?
    ensures CountsIt(cfg, b, op)
  {
    hide SetLoSource, SetLoExport, Close, Open, SetRate, Tune, SetClock, SetTimeSrc, DropTime, LoadTimes, StartRx, SetCommandTimes, ClearCommandTimes, Forget, KnownTarget, Holds, Known, Ready, CloseRates, Remembered, FloorCrossed;
  }

  lemma OtherCounts(cfg: Cfg, b: Backend, op: Op)
    requires op.OpOpen? || op.OpClose? || op.OpBeginSync? || op.OpEndSync? || op.OpRxStart? || op.OpRxStop? || op.OpSetCommandTime? || op.OpClearCommandTime?
    ensures CountsIt(cfg, b, op)
  {
    hide SetLoSource, SetLoExport, SetIntDelay, SetRate, Tune, SetClock, SetTimeSrc, DropTime, LoadTimes, Forget, KnownTarget, Targets, StreamAllowed, Holds, Known, Ready, CloseRates, Remembered, FloorCrossed, Read;
  }

  lemma CallCounts(cfg: Cfg, b: Backend, op: Op)
    requires Inv(cfg, b)
    ensures CountsIt(cfg, b, op)
  {
    hide *;
    match op
    case OpSetRate(_, _, _) => RateCounts(cfg, b, op);
    case OpTune(_, _, _, _, _, _, _) => TuneCounts(cfg, b, op);
    case OpClockSource(_, _) => ReferenceCounts(cfg, b, op);
    case OpTimeSource(_, _) => ReferenceCounts(cfg, b, op);
    case OpMasterClock(_, _, _) => ReferenceCounts(cfg, b, op);
    case OpTimeLoad(_, _) => ReferenceCounts(cfg, b, op);
    case OpInvalidateTime => ReferenceCounts(cfg, b, op);
    case OpLoSource(_, _, _, _) => SourceCounts(cfg, b, op);
    case OpLoExport(_, _, _, _) => ExportCounts(cfg, b, op);
    case OpIntDelay(_, _, _, _, _) => DelayCounts(cfg, b, op);
    case _ => OtherCounts(cfg, b, op);
  }

  /** The positions of the calls that disturbed coherence. */
  ghost function Disturbances(cfg: Cfg, ops: seq<Op>): set<nat> {
    set i: nat | i < |ops| && Disturbs(cfg, Run(cfg, Fresh, ops[..i]), ops[i])
  }

  ghost function Begun(ops: seq<Op>): set<nat> {
    set i: nat | i < |ops| && ops[i].OpBeginSync?
  }

  ghost function Ended(ops: seq<Op>): set<nat> {
    set i: nat | i < |ops| && ops[i].OpEndSync?
  }

  ghost function Windows(ops: seq<Op>): int {
    |Begun(ops)| - |Ended(ops)|
  }

  ghost predicate WasOpened(cfg: Cfg, ops: seq<Op>) {
    exists i: nat :: i < |ops| && Opened(Run(cfg, Fresh, ops[..i]), ops[i])
  }

  lemma NothingYet(cfg: Cfg)
    ensures Run(cfg, Fresh, []) == Fresh && Disturbances(cfg, []) == {} && Windows([]) == 0 && !WasOpened(cfg, [])
  {
    hide Disturbs;
  }

  /** In every history the generation is the number of disturbing calls, and the sync depth the number of windows
      begun and not ended. */
  lemma {:induction false} GenerationCounts(cfg: Cfg, ops: seq<Op>)
    ensures Run(cfg, Fresh, ops).generation == |Disturbances(cfg, ops)|
    ensures Run(cfg, Fresh, ops).syncDepth == Windows(ops)
    ensures Run(cfg, Fresh, ops).everOpened <==> WasOpened(cfg, ops)
    decreases |ops|
  {
    if ops == [] {
      NothingYet(cfg);
    } else {
      var n := |ops| - 1;
      var init := ops[..n];
      hide Apply, Disturbs, Inv, Run, Opened, Disturbances, Windows, WasOpened;
      GenerationCounts(cfg, init);
      FreshInv(cfg);
      RunKeepsInv(cfg, Fresh, init);
      RunLast(cfg, ops);
      CallCounts(cfg, Run(cfg, Fresh, init), ops[n]);
      DisturbancesGrow(cfg, ops);
      WindowsGrow(ops);
      OpeningsGrow(cfg, ops);
    }
  }

  lemma OneMore(a: set<nat>, a': set<nat>, n: nat, hit: bool)
    requires n !in a && a' == a + (if hit then {n} else {})
    ensures |a'| == |a| + if hit then 1 else 0
  {
  }

  lemma DisturbancesGrow(cfg: Cfg, ops: seq<Op>)
    requires ops != []
    ensures var init, last := ops[..|ops| - 1], ops[|ops| - 1];
            |Disturbances(cfg, ops)| == |Disturbances(cfg, init)| + if Disturbs(cfg, Run(cfg, Fresh, init), last) then 1 else 0
  {
    hide Run, Disturbs;
    var n := |ops| - 1;
    var init := ops[..n];
    forall i: nat | i < n ensures init[..i] == ops[..i] && init[i] == ops[i] { Prefixes(ops, i); }
    OneMore(Disturbances(cfg, init), Disturbances(cfg, ops), n, Disturbs(cfg, Run(cfg, Fresh, init), ops[n]));
  }

  lemma WindowsGrow(ops: seq<Op>)
    requires ops != []
    ensures var init, last := ops[..|ops| - 1], ops[|ops| - 1];
            Windows(ops) == Windows(init) + if last.OpBeginSync? then 1 else if last.OpEndSync? then -1 else 0
  {
    hide Begun, Ended;
    BegunGrow(ops);
    EndedGrow(ops);
  }

  lemma BegunGrow(ops: seq<Op>)
    requires ops != []
    ensures var n := |ops| - 1; |Begun(ops)| == |Begun(ops[..n])| + if ops[n].OpBeginSync? then 1 else 0
  {
    var n := |ops| - 1;
    var init := ops[..n];
    forall i: nat | i < n ensures init[i] == ops[i] { Prefixes(ops, i); }
    OneMore(Begun(init), Begun(ops), n, ops[n].OpBeginSync?);
  }

  lemma EndedGrow(ops: seq<Op>)
    requires ops != []
    ensures var n := |ops| - 1; |Ended(ops)| == |Ended(ops[..n])| + if ops[n].OpEndSync? then 1 else 0
  {
    var n := |ops| - 1;
    var init := ops[..n];
    forall i: nat | i < n ensures init[i] == ops[i] { Prefixes(ops, i); }
    OneMore(Ended(init), Ended(ops), n, ops[n].OpEndSync?);
  }

  lemma OpeningsGrow(cfg: Cfg, ops: seq<Op>)
    requires ops != []
    ensures var init, last := ops[..|ops| - 1], ops[|ops| - 1];
            WasOpened(cfg, ops) <==> Opened(Run(cfg, Fresh, init), last) || WasOpened(cfg, init)
  {
    hide Run, Opened;
    var n := |ops| - 1;
    var init := ops[..n];
    forall i: nat | i < n ensures init[..i] == ops[..i] && init[i] == ops[i] { Prefixes(ops, i); }
    if i: nat :| i < |ops| && Opened(Run(cfg, Fresh, ops[..i]), ops[i]) {
      assert i < n ==> Opened(Run(cfg, Fresh, init[..i]), init[i]);
    }
    if Opened(Run(cfg, Fresh, init), ops[n]) {
      assert Opened(Run(cfg, Fresh, ops[..n]), ops[n]);
    }
    if i: nat :| i < |init| && Opened(Run(cfg, Fresh, init[..i]), init[i]) {
      assert Opened(Run(cfg, Fresh, ops[..i]), ops[i]);
    }
  }
}
