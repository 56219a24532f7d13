/** The transmit protocol of `ActiveBackend` (active_backend.py: `_tx_change`, `command_window`,
    `invalidate_time`, `tx_burst`) as a step machine over any number of threads.

    A thread advances one step at a time; between any two of its steps other threads and the safety
    controller may act. Two locks are explicit: `_tx_lock`, which is re-entrant through command windows,
    and `_lock`. The safety controller is an environment: it may trip, disarm, arm, reset or shut the
    transmitter down at any point, moves its trip generation only upwards, and enters TRANSMITTING only
    in `consume`. */
module TxProtocol {
  import opened Results
  import opened Reals
  import opened LoPlans
  import opened Backends

  type Tid = nat

  /** The configuration, the LO offset the safety policy authorizes (None: not checked), and whether rate,
      centre and LO offset are read back from the devices, which an open does not reset, as the simulator
      does, or from the settings of the session. */
  datatype Conf = Conf(cfg: Cfg, policyLo: Option<real>, physical: bool)

  datatype TxState = Disabled | Safe | Armed | Transmitting | Fault

  datatype Safety = Safety(state: TxState, tripGen: nat)

  /** What was executed on the device since the last TX gain write. */
  datatype Device = Device(aborted: bool, minimized: bool)

  /** A transmit permit; a rate or centre that is missing or not finite is None. */
  datatype Permit = Permit(fs: Option<real>, fc: Option<real>, devices: set<string>, chainsOk: bool, startOk: bool)

  /** A burst past `consume`: its number, the trip generation read before, how often the devices had been
      opened when its RF state was last checked, and how often time and tune had been dropped when it was
      first checked. */
  datatype Burst = Burst(id: nat, permit: Permit, gen0: nat, epoch: nat, seen: nat)

  /** What the threads share. `inFlight`, `bursts`, `hits`, `opens` and `drops` record history: the burst
      between `consume` and the check after its send, the bursts consumed so far, those of them a trip or
      disarm landed on, the opens so far, and the opens and time invalidations so far. */
  datatype Shared = Shared(
    txOwner: Option<Tid>,
    lockOwner: Option<Tid>,
    b: Backend,
    safety: Safety,
    dev: Device,
    opens: nat,
    drops: nat,
    inFlight: Option<nat>,
    bursts: nat,
    hits: set<nat>)

  datatype Pc =
    | Idle
    // a change that invalidates TX
    | Quiesce(op: Op, held: bool) | WaitTx(op: Op) | WaitLock(op: Op) | LiveCheck(op: Op) | Body(op: Op)
    // an operation under `_lock` alone
    | TripFirst | WaitPlain(op: Op)
    // a command window
    | WindowWaitTx(target: Target, at: real) | WindowSet(target: Target, at: real) | WindowClear(target: Target)
    // a burst, up to consume
    | BurstWaitTx(permit: Permit) | Precheck(permit: Permit) | ReadGen(permit: Permit, seen: nat)
    | Consume(permit: Permit, gen: nat, seen: nat)
    // under `_lock`
    | EnterLock(burst: Burst) | CheckStop(burst: Burst) | CheckRf(burst: Burst) | CheckStart(burst: Burst)
    | WriteGain(burst: Burst) | Readback(burst: Burst) | CheckLast(burst: Burst)
    // the send, without `_lock`
    | Send(burst: Burst) | Sending(burst: Burst) | FinalCheck(burst: Burst)
    // ways out
    | Aborting(burst: Burst) | Minimizing(burst: Burst) | Raising(burst: Burst)
    | Completing(burst: Burst) | Returning(burst: Burst)

  /** `depth` command windows are open. */
  datatype Thread = Thread(depth: nat, pc: Pc)

  datatype Sys = Sys(threads: map<Tid, Thread>, sh: Shared)

  // --- checks ----------------------------------------------------------------------------------

  predicate Live(s: Safety) {
    s.state.Armed? || s.state.Transmitting?
  }

  /** `_tx_interruption`. */
  predicate Interrupted(s: Safety, gen0: nat) {
    s.tripGen != gen0 || !s.state.Transmitting?
  }

  /** The device TX rate, tuned centre and LO offset are those the permit was authorized for. */
  predicate Matches(c: Conf, b: Backend, p: Permit) {
    var fs := Rate(c.cfg, b, Tx);
    && p.fs.Some? && Abs(fs - p.fs.value) <= 0.000000001 * Max(Abs(fs), 1.0)
    && p.fc.Some? && Abs(TunedFreq(c.cfg, b, Tx) - p.fc.value) <= 1.0
    && (c.policyLo.Some? ==> Abs(TunedLoOffset(c.cfg, b, Tx) - c.policyLo.value) <= 1.0)
  }

  /** `_tx_rf_problem` finds nothing. */
  predicate RfOk(c: Conf, b: Backend, p: Permit) {
    Matches(c, b, p) && Tx in b.tunedDirs
  }

  /** `_tx_cmd_time_problem` finds nothing. */
  predicate NoCommandTime(b: Backend, p: Permit) {
    forall d :: d in p.devices ==> d !in b.cmdTime
  }

  predicate PrecheckOk(c: Conf, b: Backend, p: Permit) {
    && b.open && RefsOk(c.cfg, b) && b.tuned && (TimeRequired(c.cfg) ==> TimeOk(c.cfg, b))
    && p.chainsOk && p.startOk
    && RfOk(c, b, p) && NoCommandTime(b, p)
  }

  /** Operations run inside `_tx_change`. */
  predicate Guarded(op: Op) {
    match op
    case OpClockSource(_, _) => true
    case OpTimeSource(_, _) => true
    case OpMasterClock(_, _, _) => true
    case OpTimeLoad(_, _) => true
    case OpLoSource(_, _, _, _) => true
    case OpLoExport(_, _, _, _) => true
    case OpSetRate(dir, _, _) => dir.Tx?
    case OpTune(dir, _, _, _, _, _, _) => dir.Tx?
    case OpIntDelay(dir, _, _, _, _) => dir.Tx?
    case _ => false
  }

  /** Reference changes trip a live TX; the other guarded changes disarm it. */
  function QuietState(op: Op): TxState {
    if op.OpClockSource? || op.OpTimeSource? || op.OpMasterClock? then Fault else Safe
  }

  // --- pieces of steps -------------------------------------------------------------------------

  predicate CanTakeTx(sh: Shared, t: Tid) {
    sh.txOwner.None? || sh.txOwner.value == t
  }

  /** Leaving a `with self._tx_lock`: still held inside a command window. */
  function ReleaseTx(sh: Shared, depth: nat): Shared {
    if depth > 0 then sh else sh.(txOwner := None)
  }

  /** The controller moves to another state or trip generation: that lands on the burst in flight when the
      generation moves or TRANSMITTING is left. */
  function SetSafety(sh: Shared, s: Safety): Shared {
    var lands := s.tripGen != sh.safety.tripGen || (sh.safety.state.Transmitting? && !s.state.Transmitting?);
    sh.(safety := s, hits := sh.hits + if lands && sh.inFlight.Some? then {sh.inFlight.value} else {})
  }

  /** A trip or disarm from inside the backend. */
  function Shutdown(sh: Shared, state: TxState): Shared {
    SetSafety(sh, Safety(state, sh.safety.tripGen + 1)).(dev := Device(true, true))
  }

  datatype Out = Out(sh: Shared, th: Thread)

  function To(sh: Shared, th: Thread, pc: Pc): Out {
    Out(sh, Thread(th.depth, pc))
  }

  /** Leave the outermost block of the call. */
  function Leave(sh: Shared, th: Thread): Out {
    To(ReleaseTx(sh, th.depth), th, Idle)
  }

  /** An exception in the try block: `_lock` is released, then the handler runs. */
  function Fail(sh: Shared, th: Thread, locked: bool): Out
    requires th.pc.EnterLock? || th.pc.CheckStop? || th.pc.CheckRf? || th.pc.CheckStart? || th.pc.WriteGain?
             || th.pc.Readback? || th.pc.CheckLast? || th.pc.Send? || th.pc.Sending?
  {
    To(sh.(lockOwner := if locked then None else sh.lockOwner, inFlight := None), th, Aborting(th.pc.burst))
  }

  // --- one step of a thread --------------------------------------------------------------------
  // `ok` false: a hook raises, a check on device clocks or gains fails, a disarm does not complete.

  function ChangeStep(c: Conf, sh: Shared, t: Tid, th: Thread, ok: bool): Out {
    match th.pc
    case Quiesce(op, held) =>
      if Live(sh.safety) && !ok then (if held then Leave(sh, th) else To(sh, th, Idle))
      else To(if Live(sh.safety) then Shutdown(sh, QuietState(op)) else sh, th, if held then WaitLock(op) else WaitTx(op))
    case WaitTx(op) => if CanTakeTx(sh, t) then To(sh.(txOwner := Some(t)), th, Quiesce(op, true)) else Out(sh, th)
    case WaitLock(op) => if sh.lockOwner.None? then To(sh.(lockOwner := Some(t)), th, LiveCheck(op)) else Out(sh, th)
    case LiveCheck(op) => if Live(sh.safety) then Leave(sh.(lockOwner := None), th) else To(sh, th, Body(op))
    case Body(op) => Leave(sh.(lockOwner := None, b := Apply(c.cfg, sh.b, op)), th)
    case _ => Out(sh, th)
  }

  /** The operation, and the readings a physical open leaves alone. */
  function PlainApply(c: Conf, b: Backend, op: Op): Backend {
    var b' := Apply(c.cfg, b, op);
    if c.physical && op.OpOpen? then b'.(rf := b'.rf.(rate := b.rf.rate, center := b.rf.center, loOffset := b.rf.loOffset)) else b'
  }

  /** An operation under `_lock` alone, in one step: opening and closing leave the TX gain at minimum. */
  function PlainEffect(c: Conf, sh: Shared, op: Op): Shared {
    var opening := op.OpOpen? && !sh.b.open && op.hookOk;
    var closing := op.OpClose? && sh.b.open;
    sh.(b := PlainApply(c, sh.b, op),
        opens := sh.opens + (if opening then 1 else 0),
        drops := sh.drops + (if opening || op.OpInvalidateTime? then 1 else 0),
        dev := Device(sh.dev.aborted || closing, sh.dev.minimized || opening || closing))
  }

  function PlainStep(c: Conf, sh: Shared, t: Tid, th: Thread, ok: bool): Out {
    match th.pc
    case TripFirst => To(if Live(sh.safety) && ok then Shutdown(sh, Fault) else sh, th, WaitPlain(OpInvalidateTime))
    case WaitPlain(op) => if sh.lockOwner.None? then To(PlainEffect(c, sh, op), th, Idle) else Out(sh, th)
    case _ => Out(sh, th)
  }

  function WindowStep(c: Conf, sh: Shared, t: Tid, th: Thread, ok: bool): Out {
    match th.pc
    case WindowWaitTx(target, at) => if CanTakeTx(sh, t) then To(sh.(txOwner := Some(t)), th, WindowSet(target, at)) else Out(sh, th)
    case WindowSet(target, at) =>
      if sh.lockOwner.Some? then Out(sh, th)
      else
        var sh' := PlainEffect(c, sh, OpSetCommandTime(target, at, ok));
        if sh.b.open && KnownTarget(c.cfg, target) && ok then Out(sh', Thread(th.depth + 1, Idle)) else Leave(sh', th)
    case WindowClear(target) =>
      if sh.lockOwner.Some? || th.depth == 0 then Out(sh, th)
      else Leave(PlainEffect(c, sh, OpClearCommandTime(target, ok)), Thread(th.depth - 1, th.pc))
    case _ => Out(sh, th)
  }

  function BeforeConsume(c: Conf, sh: Shared, t: Tid, th: Thread, ok: bool): Out {
    match th.pc
    case BurstWaitTx(p) => if CanTakeTx(sh, t) then To(sh.(txOwner := Some(t)), th, Precheck(p)) else Out(sh, th)
    case Precheck(p) =>
      if sh.lockOwner.Some? then Out(sh, th)
      else if PrecheckOk(c, sh.b, p) && ok then To(sh.(b := sh.b.(txStreamer := true)), th, ReadGen(p, sh.drops))
      else Leave(sh, th)
    case ReadGen(p, seen) => To(sh, th, Consume(p, sh.safety.tripGen, seen))
    case Consume(p, g, seen) =>
      if sh.safety.state.Armed? && ok then
        To(sh.(safety := Safety(Transmitting, sh.safety.tripGen), inFlight := Some(sh.bursts), bursts := sh.bursts + 1),
           th, EnterLock(Burst(sh.bursts, p, g, 0, seen)))
      else Leave(sh, th)
    case _ => Out(sh, th)
  }

  function UnderLock(c: Conf, sh: Shared, t: Tid, th: Thread, ok: bool): Out {
    match th.pc
    case EnterLock(bu) =>
      if !ok then Fail(sh, th, false)
      else if sh.lockOwner.None? then To(sh.(lockOwner := Some(t)), th, CheckStop(bu)) else Out(sh, th)
    case CheckStop(bu) => if Interrupted(sh.safety, bu.gen0) || !ok then Fail(sh, th, true) else To(sh, th, CheckRf(bu))
    case CheckRf(bu) =>
      if RfOk(c, sh.b, bu.permit) && NoCommandTime(sh.b, bu.permit) && ok then To(sh, th, CheckStart(bu.(epoch := sh.opens)))
      else Fail(sh, th, true)
    case CheckStart(bu) => if ok then To(sh, th, WriteGain(bu)) else Fail(sh, th, true)
    case WriteGain(bu) =>
      var sh' := sh.(dev := Device(false, false));
      if ok then To(sh', th, Readback(bu)) else Fail(sh', th, true)
    case Readback(bu) => if ok then To(sh, th, CheckLast(bu)) else Fail(sh, th, true)
    case CheckLast(bu) =>
      if Interrupted(sh.safety, bu.gen0) || !ok then Fail(sh, th, true) else To(sh.(lockOwner := None), th, Send(bu))
    case _ => Out(sh, th)
  }

  function SendStep(c: Conf, sh: Shared, t: Tid, th: Thread, ok: bool): Out {
    match th.pc
    case Send(bu) => if ok then To(sh, th, Sending(bu)) else Fail(sh, th, false)
    case Sending(bu) => if ok then To(sh, th, FinalCheck(bu)) else Fail(sh, th, false)
    case FinalCheck(bu) =>
      To(sh.(inFlight := None), th, if Interrupted(sh.safety, bu.gen0) then Aborting(bu) else Completing(bu))
    case Aborting(bu) => To(sh.(dev := sh.dev.(aborted := true)), th, Minimizing(bu))
    case Minimizing(bu) => To(sh.(dev := sh.dev.(minimized := true)), th, Raising(bu))
    case Raising(bu) => Leave(sh, th)
    case Completing(bu) => if ok then To(sh, th, Returning(bu)) else Leave(sh, th)
    case Returning(bu) => Leave(sh, th)
    case _ => Out(sh, th)
  }

  function Step(c: Conf, sh: Shared, t: Tid, th: Thread, ok: bool): Out {
    match Part(th.pc)
    case Changing => ChangeStep(c, sh, t, th, ok)
    case Plain => PlainStep(c, sh, t, th, ok)
    case Window => WindowStep(c, sh, t, th, ok)
    case Starting => BeforeConsume(c, sh, t, th, ok)
    case Locked => UnderLock(c, sh, t, th, ok)
    case Ending => SendStep(c, sh, t, th, ok)
  }

  datatype PartOf = Changing | Plain | Window | Starting | Locked | Ending

  function Part(pc: Pc): PartOf {
    match pc
    case Idle => Plain
    case Quiesce(_, _) => Changing
    case WaitTx(_) => Changing
    case WaitLock(_) => Changing
    case LiveCheck(_) => Changing
    case Body(_) => Changing
    case TripFirst => Plain
    case WaitPlain(_) => Plain
    case WindowWaitTx(_, _) => Window
    case WindowSet(_, _) => Window
    case WindowClear(_) => Window
    case BurstWaitTx(_) => Starting
    case Precheck(_) => Starting
    case ReadGen(_, _) => Starting
    case Consume(_, _, _) => Starting
    case EnterLock(_) => Locked
    case CheckStop(_) => Locked
    case CheckRf(_) => Locked
    case CheckStart(_) => Locked
    case WriteGain(_) => Locked
    case Readback(_) => Locked
    case CheckLast(_) => Locked
    case _ => Ending
  }

  // --- runs ------------------------------------------------------------------------------------

  datatype Call =
    | Change(op: Op)
    | Direct(op: Op)
    | Invalidate
    | OpenWindow(target: Target, at: real)
    | CloseWindow(target: Target)
    | Transmit(permit: Permit)

  /** Where a call starts; a call that does not fit stays idle. */
  function Entry(sh: Shared, th: Thread, call: Call): Pc {
    match call
    case Change(op) => if Guarded(op) then Quiesce(op, false) else Idle
    case Direct(op) => if Guarded(op) || op.OpInvalidateTime? then Idle else WaitPlain(op)
    case Invalidate => TripFirst
    case OpenWindow(target, at) => WindowWaitTx(target, at)
    case CloseWindow(target) => if th.depth > 0 then WindowClear(target) else Idle
    case Transmit(p) => if sh.safety.state.Disabled? then Idle else BurstWaitTx(p)
  }

  /** Moves of the safety controller: a trip or shutdown begins, any state but TRANSMITTING is entered, and
      the abort and gain steps of a shutdown run. */
  datatype EnvAct = MoveGen | Enter(state: TxState) | EnvAbort | EnvMinimize

  function EnvStep(sh: Shared, act: EnvAct): Shared {
    match act
    case MoveGen => SetSafety(sh, Safety(sh.safety.state, sh.safety.tripGen + 1))
    case Enter(st) => if st.Transmitting? then sh else SetSafety(sh, Safety(st, sh.safety.tripGen))
    case EnvAbort => sh.(dev := sh.dev.(aborted := true))
    case EnvMinimize => sh.(dev := sh.dev.(minimized := true))
  }

  datatype Label = Env(act: EnvAct) | Begin(t: Tid, call: Call) | Go(t: Tid, ok: bool)

  function Next(c: Conf, s: Sys, l: Label): Sys {
    match l
    case Env(act) => Sys(s.threads, EnvStep(s.sh, act))
    case Begin(t, call) =>
      if t in s.threads && s.threads[t].pc.Idle? then
        Sys(s.threads[t := Thread(s.threads[t].depth, Entry(s.sh, s.threads[t], call))], s.sh)
      else s
    case Go(t, ok) =>
      if t in s.threads then
        var o := Step(c, s.sh, t, s.threads[t], ok);
        Sys(s.threads[t := o.th], o.sh)
      else s
  }

  function RunAll(c: Conf, s: Sys, ls: seq<Label>): Sys
    decreases |ls|
  {
    if ls == [] then s else RunAll(c, Next(c, s, ls[0]), ls[1..])
  }

  /** Any number of idle threads, no lock held, no burst yet. */
  ghost predicate Initial(s: Sys) {
    && (forall t :: t in s.threads ==> s.threads[t] == Thread(0, Idle))
    && s.sh.txOwner == None && s.sh.lockOwner == None
    && s.sh.inFlight == None && s.sh.hits == {}
  }
}
