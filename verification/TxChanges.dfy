/** What each call of the transmit protocol achieves when nothing disturbs it, when it refuses, and what a burst
    has passed before it is sent. */
module TxChanges {
  import opened Results
  import opened LoPlans
  import opened Backends
  import opened TxProtocol
  import opened TxRely
  import opened TxSafety
  import opened TxRaces

  // --- guarded changes ---------------------------------------------------------------------------

  /** Armed or transmitting. */
  predicate OnAir(s: Safety) {
    s.state == Armed || s.state == Transmitting
  }

  predicate ReferenceOp(op: Op) {
    op.OpClockSource? || op.OpTimeSource? || op.OpMasterClock?
  }

  /** A thread that is idle, with the transmit lock free or its own through command windows, and `_lock` free. */
  ghost predicate Undisturbed(s: Sys, t: Tid) {
    && t in s.threads && s.threads[t].pc == Idle && s.sh.lockOwner == None
    && s.sh.txOwner == if s.threads[t].depth > 0 then Some(t) else None
  }

  /** A guarded change that nobody disturbs ends idle with the locks as before, the backend being what the
      operation makes of it. On air, TX goes off first: to FAULT for the reference changes, to SAFE for the
      others, with the trip generation moved, the burst aborted and the gain at minimum. */
  lemma {:induction false} ChangeTakesEffect(c: Conf, s: Sys, t: Tid, op: Op)
    requires Undisturbed(s, t) && Guarded(op)
    ensures var s' := RunAll(c, s, [Begin(t, Change(op))] + Gos(t, 6));
            && s'.threads == s.threads && s'.sh.txOwner == s.sh.txOwner && s'.sh.lockOwner == None
            && s'.sh.b == Apply(c.cfg, s.sh.b, op)
            && s'.sh.safety == (if OnAir(s.sh.safety) then Safety(if ReferenceOp(op) then Fault else Safe, s.sh.safety.tripGen + 1) else s.sh.safety)
            && s'.sh.dev == (if OnAir(s.sh.safety) then Device(true, true) else s.sh.dev)
            && s'.sh.inFlight == s.sh.inFlight && s'.sh.opens == s.sh.opens && s'.sh.drops == s.sh.drops && s'.sh.bursts == s.sh.bursts
  {
    var k := s.threads[t].depth;
    var begun := Next(c, s, Begin(t, Change(op)));
    assert begun == Sys(s.threads[t := Thread(k, Quiesce(op, false))], s.sh) by { hide Guarded; }
    hide RunAll, Next, Guarded;
    ChangeSteps(c, s.sh, t, k, op);
    AdvanceIsARun(c, begun, t, 6);
    RunFirst(c, s, Begin(t, Change(op)), Gos(t, 6));
    hide *;
    BackToIdle(c, s, begun, t, Quiesce(op, false), 6);
  }

  /** The thread map after a call that ends idle. */
  lemma BackToIdle(c: Conf, s: Sys, begun: Sys, t: Tid, pc: Pc, n: nat)
    requires t in s.threads && s.threads[t].pc == Idle && begun == Sys(s.threads[t := Thread(s.threads[t].depth, pc)], s.sh)
    requires Steps(c, Out(s.sh, Thread(s.threads[t].depth, pc)), t, n).th == Thread(s.threads[t].depth, Idle)
    ensures Advance(c, begun, t, n) == Sys(s.threads, Steps(c, Out(s.sh, Thread(s.threads[t].depth, pc)), t, n).sh)
  {
    hide Steps;
    assert begun.threads[t := Thread(s.threads[t].depth, Idle)] == s.threads;
  }

  function Quieted(sh: Shared, op: Op): Shared {
    if Live(sh.safety) then Shutdown(sh, QuietState(op)) else sh
  }

  lemma QuietedIs(sh: Shared, op: Op)
    ensures var q := Quieted(sh, op);
            && !Live(q.safety) && Quieted(q, op) == q
            && q.safety == (if OnAir(sh.safety) then Safety(if ReferenceOp(op) then Fault else Safe, sh.safety.tripGen + 1) else sh.safety)
            && q.dev == (if OnAir(sh.safety) then Device(true, true) else sh.dev)
            && q.txOwner == sh.txOwner && q.lockOwner == sh.lockOwner && q.b == sh.b
            && q.inFlight == sh.inFlight && q.opens == sh.opens && q.drops == sh.drops && q.bursts == sh.bursts
  {
  }

  lemma ChangeOneStep(c: Conf, sh: Shared, t: Tid, th: Thread, n: nat, o: Out)
    requires Part(th.pc).Changing? && ChangeStep(c, sh, t, th, true) == o
    ensures Steps(c, Out(sh, th), t, n + 1) == Steps(c, o, t, n)
  {
    hide ChangeStep, Part;
  }

  lemma {:induction false} ChangeSteps(c: Conf, sh: Shared, t: Tid, k: nat, op: Op)
    requires sh.lockOwner == None && sh.txOwner == (if k > 0 then Some(t) else None)
    ensures var o := Steps(c, Out(sh, Thread(k, Quiesce(op, false))), t, 6);
            && o.th == Thread(k, Idle)
            && o.sh == Quieted(sh, op).(b := Apply(c.cfg, sh.b, op))
  {
    hide Steps, Apply, Shutdown, QuietState, Live;
    var q := Quieted(sh, op);
    QuietedIs(sh, op);
    var held := q.(txOwner := Some(t));
    assert Quieted(held, op) == held;
    ChangeOneStep(c, sh, t, Thread(k, Quiesce(op, false)), 5, Out(q, Thread(k, WaitTx(op))));
    ChangeOneStep(c, q, t, Thread(k, WaitTx(op)), 4, Out(held, Thread(k, Quiesce(op, true))));
    ChangeOneStep(c, held, t, Thread(k, Quiesce(op, true)), 3, Out(held, Thread(k, WaitLock(op))));
    ChangeUnderLock(c, held, t, k, op);
  }

  lemma ChangeUnderLock(c: Conf, sh: Shared, t: Tid, k: nat, op: Op)
    requires sh.lockOwner == None && sh.txOwner == Some(t) && !Live(sh.safety)
    ensures Steps(c, Out(sh, Thread(k, WaitLock(op))), t, 3)
            == Out(sh.(txOwner := if k > 0 then Some(t) else None, b := Apply(c.cfg, sh.b, op)), Thread(k, Idle))
  {
    hide Steps, Apply, Shutdown, QuietState, Live;
    var both := sh.(lockOwner := Some(t));
    var o := Out(sh.(txOwner := if k > 0 then Some(t) else None, b := Apply(c.cfg, sh.b, op)), Thread(k, Idle));
    ChangeOneStep(c, sh, t, Thread(k, WaitLock(op)), 2, Out(both, Thread(k, LiveCheck(op))));
    ChangeOneStep(c, both, t, Thread(k, LiveCheck(op)), 1, Out(both, Thread(k, Body(op))));
    ChangeOneStep(c, both, t, Thread(k, Body(op)), 0, o);
    NoSteps(c, o, t);
  }

  /** A change that finds TX on air and cannot take it off is refused: nothing changes. */
  lemma {:induction false} RefusedAtTheDoor(c: Conf, s: Sys, t: Tid, op: Op)
    requires Undisturbed(s, t) && Guarded(op) && OnAir(s.sh.safety)
    ensures RunAll(c, s, [Begin(t, Change(op)), Go(t, false)]) == s
  {
    var k := s.threads[t].depth;
    var begun := Next(c, s, Begin(t, Change(op)));
    assert begun == Sys(s.threads[t := Thread(k, Quiesce(op, false))], s.sh) by { hide Guarded; }
    assert Step(c, s.sh, t, begun.threads[t], false) == Out(s.sh, Thread(k, Idle));
    hide Step, RunAll, Guarded;
    RunTwo(c, s, Begin(t, Change(op)), Go(t, false));
    assert begun.threads[t := Thread(k, Idle)] == s.threads;
  }

  /** TX armed after the change went quiet: the check under both locks refuses it, the backend stays as it was and
      both locks are freed. */
  lemma {:induction false} RefusedUnderLock(c: Conf, s: Sys, t: Tid, op: Op, ok: bool)
    requires t in s.threads && s.threads[t].pc == LiveCheck(op) && OnAir(s.sh.safety)
    ensures var s' := Next(c, s, Go(t, ok));
            && s'.threads == s.threads[t := Thread(s.threads[t].depth, Idle)]
            && s'.sh == s.sh.(lockOwner := None, txOwner := if s.threads[t].depth > 0 then s.sh.txOwner else None)
  {
  }

  /** Nothing but the body of a change, an operation under `_lock`, a command window and the first check of a burst
      touches the backend. */
  lemma {:induction false} BackendTouchedOnly(c: Conf, sh: Shared, t: Tid, th: Thread, ok: bool)
    requires Step(c, sh, t, th, ok).sh.b != sh.b
    ensures th.pc.Body? || th.pc.WaitPlain? || th.pc.WindowSet? || th.pc.WindowClear? || th.pc.Precheck?
  {
    hide Apply, PlainApply, RfOk, NoCommandTime, PrecheckOk, Interrupted;
  }

  /** The device state a transmission depends on. */
  ghost predicate SameTxSetup(b: Backend, b': Backend) {
    && SameTx(b, b') && b'.lo.src == b.lo.src && b'.lo.exp == b.lo.exp
    && (forall ref :: DelayOf(b'.lo, (Tx, ref)) == DelayOf(b.lo, (Tx, ref)))
    && b'.clockSet == b.clockSet && b'.timeSrcSet == b.timeSrcSet && b'.timeSet == b.timeSet
    && (Tx in b'.tunedDirs <==> Tx in b.tunedDirs)
  }

  /** Whatever may run beside a burst, other than an open and a time invalidation, leaves it alone; so everything that
      touches it is guarded. */
  lemma {:induction false} UnguardedLeavesTx(cfg: Cfg, b: Backend, op: Op)
    requires !Guarded(op) && !op.OpOpen? && !op.OpInvalidateTime?
    ensures SameTxSetup(b, Apply(cfg, b, op))
  {
    match op
    case OpSetRate(dir, hz, actual) => RxRateLeavesTx(cfg, b, hz, actual);
    case OpTune(dir, f, lo, fOld, late, result, bump) => RxTuneLeavesTx(cfg, b, f, lo, fOld, late, result, bump);
    case OpIntDelay(dir, ref, n, accepted, bump) => RxDelayLeavesTx(b, ref, n, accepted, bump);
    case _ =>
      hide DropTime, SetClock, SetTimeSrc, LoadTimes, SetRate, Tune, SetIntDelay, KnownTarget, StreamAllowed, SetLoSource, SetLoExport, DelayOf;
  }

  lemma RxRateLeavesTx(cfg: Cfg, b: Backend, hz: real, actual: Option<real>)
    ensures SameTxSetup(b, SetRate(cfg, b, Rx, hz, actual))
  {
    hide RateMoved, DelayOf;
  }

  lemma RxTuneLeavesTx(cfg: Cfg, b: Backend, f: real, lo: real, fOld: real, late: bool, result: Option<TuneHook>, bump: bool)
    ensures SameTxSetup(b, Tune(cfg, b, Rx, f, lo, fOld, late, result, bump))
  {
    hide Report, NeedsBump, TuneAllowed, DelayOf;
  }

  lemma RxDelayLeavesTx(b: Backend, ref: ChannelRef, n: int, accepted: Option<bool>, bump: bool)
    ensures SameTxSetup(b, SetIntDelay(b, Rx, ref, n, accepted, bump))
  {
  }

  /** RX settings change beside a burst. */
  lemma RxIsUnguarded(op: Op)
    requires (op.OpSetRate? || op.OpTune? || op.OpIntDelay?) && op.dir == Rx
    ensures !Guarded(op)
  {
  }

  /** An operation that takes `_lock` alone and that nobody disturbs: the backend is what it makes of it, up to readings a
      physical open leaves alone; closing aborts and leaves minimum gain, opening leaves minimum gain. */
  lemma {:induction false} DirectTakesEffect(c: Conf, s: Sys, t: Tid, op: Op)
    requires Undisturbed(s, t) && !Guarded(op) && !op.OpInvalidateTime?
    ensures var s' := RunAll(c, s, [Begin(t, Direct(op)), Go(t, true)]);
            && s'.threads == s.threads && s'.sh.txOwner == s.sh.txOwner && s'.sh.lockOwner == None && s'.sh.safety == s.sh.safety
            && (!c.physical || !op.OpOpen? ==> s'.sh.b == Apply(c.cfg, s.sh.b, op))
            && (op.OpClose? && s.sh.b.open ==> s'.sh.dev == Device(true, true))
            && (op.OpOpen? && !s.sh.b.open && op.hookOk ==> s'.sh.dev.minimized)
            && (!op.OpClose? && !op.OpOpen? ==> s'.sh.dev == s.sh.dev)
  {
    hide Apply, Guarded, RunAll, Next;
    DirectCall(c, s, t, op);
    RunTwo(c, s, Begin(t, Direct(op)), Go(t, true));
  }

  // --- time invalidation -----------------------------------------------------------------------

  /** `invalidate_time` that nobody disturbs: TX on air is tripped first, then times, tune and streaming are gone and
      the generation moved by one. */
  lemma {:induction false} InvalidationTakesEffect(c: Conf, s: Sys, t: Tid)
    requires Undisturbed(s, t)
    ensures var s' := RunAll(c, s, [Begin(t, Invalidate)] + Gos(t, 2));
            && s'.threads == s.threads && s'.sh.txOwner == s.sh.txOwner && s'.sh.lockOwner == None
            && s'.sh.b.timeSet == {} && s'.sh.b.tunedDirs == {} && !s'.sh.b.tuned && !s'.sh.b.streaming
            && s'.sh.b.generation == s.sh.b.generation + 1 && s'.sh.b.rf == s.sh.b.rf && s'.sh.b.lo == s.sh.b.lo
            && s'.sh.b.open == s.sh.b.open && s'.sh.drops == s.sh.drops + 1 && s'.sh.opens == s.sh.opens
            && s'.sh.safety == (if OnAir(s.sh.safety) then Safety(Fault, s.sh.safety.tripGen + 1) else s.sh.safety)
            && s'.sh.dev == (if OnAir(s.sh.safety) then Device(true, true) else s.sh.dev)
  {
    var k := s.threads[t].depth;
    var begun := Next(c, s, Begin(t, Invalidate));
    assert begun == Sys(s.threads[t := Thread(k, TripFirst)], s.sh);
    InvalidationSteps(c, s.sh, t, k);
    hide RunAll, Next, Steps;
    AdvanceIsARun(c, begun, t, 2);
    RunFirst(c, s, Begin(t, Invalidate), Gos(t, 2));
    hide *;
    BackToIdle(c, s, begun, t, TripFirst, 2);
  }

  lemma InvalidationSteps(c: Conf, sh: Shared, t: Tid, k: nat)
    requires sh.lockOwner == None
    ensures var o := Steps(c, Out(sh, Thread(k, TripFirst)), t, 2);
            && o.th == Thread(k, Idle)
            && o.sh.b.timeSet == {} && o.sh.b.tunedDirs == {} && !o.sh.b.tuned && !o.sh.b.streaming
            && o.sh.b.generation == sh.b.generation + 1 && o.sh.b.rf == sh.b.rf && o.sh.b.lo == sh.b.lo
            && o.sh.b.open == sh.b.open && o.sh.drops == sh.drops + 1 && o.sh.opens == sh.opens
            && o.sh.txOwner == sh.txOwner && o.sh.lockOwner == None
            && o.sh.safety == (if OnAir(sh.safety) then Safety(Fault, sh.safety.tripGen + 1) else sh.safety)
            && o.sh.dev == (if OnAir(sh.safety) then Device(true, true) else sh.dev)
  {
    hide Steps;
    var q := if Live(sh.safety) then Shutdown(sh, Fault) else sh;
    var o := Out(PlainEffect(c, q, OpInvalidateTime), Thread(k, Idle));
    OneStep(c, Out(sh, Thread(k, TripFirst)), t, 1, Out(q, Thread(k, WaitPlain(OpInvalidateTime))));
    OneStep(c, Out(q, Thread(k, WaitPlain(OpInvalidateTime))), t, 0, o);
    NoSteps(c, o, t);
    assert o.sh.b == Forget(sh.b);
  }

  // --- command windows -------------------------------------------------------------------------

  /** Opening a window on a known target sets the command time of exactly its devices and holds the transmit lock. */
  lemma {:induction false} WindowOpens(c: Conf, s: Sys, t: Tid, target: Target, at: real)
    requires Undisturbed(s, t) && s.sh.b.open && KnownTarget(c.cfg, target)
    ensures var s' := RunAll(c, s, [Begin(t, OpenWindow(target, at))] + Gos(t, 2));
            && s'.threads == s.threads[t := Thread(s.threads[t].depth + 1, Idle)] && s'.sh.txOwner == Some(t) && s'.sh.lockOwner == None
            && s'.sh.b == s.sh.b.(cmdTime := s'.sh.b.cmdTime) && s'.sh.safety == s.sh.safety
            && (forall d :: d in Targets(c.cfg, target) ==> d in s'.sh.b.cmdTime && s'.sh.b.cmdTime[d] == at)
            && (forall d :: d !in Targets(c.cfg, target) ==>
                  (d in s'.sh.b.cmdTime <==> d in s.sh.b.cmdTime) && (d in s.sh.b.cmdTime ==> s'.sh.b.cmdTime[d] == s.sh.b.cmdTime[d]))
  {
    var k := s.threads[t].depth;
    var begun := Next(c, s, Begin(t, OpenWindow(target, at)));
    assert begun == Sys(s.threads[t := Thread(k, WindowWaitTx(target, at))], s.sh);
    var held := s.sh.(txOwner := Some(t));
    var o := Out(PlainEffect(c, held, OpSetCommandTime(target, at, true)), Thread(k + 1, Idle));
    assert Step(c, s.sh, t, Thread(k, WindowWaitTx(target, at)), true) == Out(held, Thread(k, WindowSet(target, at)));
    assert Step(c, held, t, Thread(k, WindowSet(target, at)), true) == o;
    WindowSetIs(c, held, target, at);
    hide Step, RunAll, Next, Steps, PlainEffect;
    OneStep(c, Out(s.sh, Thread(k, WindowWaitTx(target, at))), t, 1, Out(held, Thread(k, WindowSet(target, at))));
    OneStep(c, Out(held, Thread(k, WindowSet(target, at))), t, 0, o);
    NoSteps(c, o, t);
    AdvanceIsARun(c, begun, t, 2);
    RunFirst(c, s, Begin(t, OpenWindow(target, at)), Gos(t, 2));
    assert begun.threads[t := Thread(k + 1, Idle)] == s.threads[t := Thread(k + 1, Idle)];
  }

  lemma WindowSetIs(c: Conf, sh: Shared, target: Target, at: real)
    requires sh.b.open && KnownTarget(c.cfg, target)
    ensures var r := PlainEffect(c, sh, OpSetCommandTime(target, at, true));
            && r.txOwner == sh.txOwner && r.lockOwner == sh.lockOwner && r.safety == sh.safety && r.b == sh.b.(cmdTime := r.b.cmdTime)
            && (forall d :: d in Targets(c.cfg, target) ==> d in r.b.cmdTime && r.b.cmdTime[d] == at)
            && (forall d :: d !in Targets(c.cfg, target) ==>
                  (d in r.b.cmdTime <==> d in sh.b.cmdTime) && (d in sh.b.cmdTime ==> r.b.cmdTime[d] == sh.b.cmdTime[d]))
  {
    hide Targets, KnownTarget;
  }

  /** Closing it clears exactly those again; the transmit lock is freed with the outermost window. */
  lemma {:induction false} WindowCloses(c: Conf, s: Sys, t: Tid, target: Target)
    requires t in s.threads && s.threads[t].pc == Idle && s.threads[t].depth > 0 && s.sh.lockOwner == None && s.sh.txOwner == Some(t)
    requires s.sh.b.open && KnownTarget(c.cfg, target)
    ensures var s' := RunAll(c, s, [Begin(t, CloseWindow(target)), Go(t, true)]);
            && s'.threads == s.threads[t := Thread(s.threads[t].depth - 1, Idle)] && s'.sh.lockOwner == None
            && s'.sh.txOwner == (if s.threads[t].depth > 1 then Some(t) else None)
            && s'.sh.b == s.sh.b.(cmdTime := s.sh.b.cmdTime - Targets(c.cfg, target)) && s'.sh.safety == s.sh.safety
  {
    var k := s.threads[t].depth;
    var begun := Next(c, s, Begin(t, CloseWindow(target)));
    assert begun == Sys(s.threads[t := Thread(k, WindowClear(target))], s.sh);
    var o := Step(c, s.sh, t, begun.threads[t], true);
    assert o.th == Thread(k - 1, Idle) && o.sh.b == s.sh.b.(cmdTime := s.sh.b.cmdTime - Targets(c.cfg, target)) && o.sh.safety == s.sh.safety
        && o.sh.lockOwner == None && o.sh.txOwner == (if k > 1 then Some(t) else None) by { hide Targets, KnownTarget; }
    hide Step, RunAll, KnownTarget, Targets;
    RunTwo(c, s, Begin(t, CloseWindow(target)), Go(t, true));
    assert begun.threads[t := Thread(k - 1, Idle)] == s.threads[t := Thread(k - 1, Idle)];
  }

  /** A window on an unknown target or closed devices is refused: nothing changes. */
  lemma {:induction false} WindowRefused(c: Conf, s: Sys, t: Tid, target: Target, at: real)
    requires Undisturbed(s, t) && !(s.sh.b.open && KnownTarget(c.cfg, target))
    ensures RunAll(c, s, [Begin(t, OpenWindow(target, at))] + Gos(t, 2)) == s
  {
    var k := s.threads[t].depth;
    var begun := Next(c, s, Begin(t, OpenWindow(target, at)));
    assert begun == Sys(s.threads[t := Thread(k, WindowWaitTx(target, at))], s.sh);
    var held := s.sh.(txOwner := Some(t));
    assert Step(c, s.sh, t, Thread(k, WindowWaitTx(target, at)), true) == Out(held, Thread(k, WindowSet(target, at)));
    assert PlainEffect(c, held, OpSetCommandTime(target, at, true)) == held by { hide KnownTarget; }
    assert Step(c, held, t, Thread(k, WindowSet(target, at)), true) == Out(s.sh, Thread(k, Idle)) by { hide PlainEffect; }
    hide Step, RunAll, Next, Steps, PlainEffect, KnownTarget;
    OneStep(c, Out(s.sh, Thread(k, WindowWaitTx(target, at))), t, 1, Out(held, Thread(k, WindowSet(target, at))));
    OneStep(c, Out(held, Thread(k, WindowSet(target, at))), t, 0, Out(s.sh, Thread(k, Idle)));
    NoSteps(c, Out(s.sh, Thread(k, Idle)), t);
    AdvanceIsARun(c, begun, t, 2);
    RunFirst(c, s, Begin(t, OpenWindow(target, at)), Gos(t, 2));
    assert begun.threads[t := Thread(k, Idle)] == s.threads;
  }

  /** A window whose command time cannot be set is not entered. */
  lemma {:induction false} WindowFails(c: Conf, sh: Shared, t: Tid, k: nat, target: Target, at: real)
    requires sh.lockOwner == None
    ensures var o := Step(c, sh, t, Thread(k, WindowSet(target, at)), false);
            o.th == Thread(k, Idle) && o.sh.lockOwner == None && o.sh.txOwner == (if k > 0 then sh.txOwner else None)
  {
    hide Apply, KnownTarget;
  }

  /** A burst whose completion the controller refuses does not return normally. */
  lemma {:induction false} CompletionFails(c: Conf, sh: Shared, t: Tid, k: nat, bu: Burst)
    ensures Step(c, sh, t, Thread(k, Completing(bu)), false) == Out(sh.(txOwner := if k > 0 then sh.txOwner else None), Thread(k, Idle))
  {
  }

  /** The controller may trip at any point, and enter any state but TRANSMITTING; what is on air is then hit. */
  lemma {:induction false} ControllerMayAct(c: Conf, s: Sys, st: TxState)
    ensures var s' := Next(c, s, Env(MoveGen));
            && s'.threads == s.threads && s'.sh.safety == Safety(s.sh.safety.state, s.sh.safety.tripGen + 1)
            && (s.sh.inFlight.Some? ==> s.sh.inFlight.value in s'.sh.hits)
    ensures var s' := Next(c, s, Env(Enter(st)));
            && s'.threads == s.threads
            && s'.sh.safety == (if st == Transmitting then s.sh.safety else Safety(st, s.sh.safety.tripGen))
            && (s.sh.inFlight.Some? && s.sh.safety.state == Transmitting && st != Transmitting ==> s.sh.inFlight.value in s'.sh.hits)
    ensures Next(c, s, Env(EnvAbort)).sh == s.sh.(dev := s.sh.dev.(aborted := true))
    ensures Next(c, s, Env(EnvMinimize)).sh == s.sh.(dev := s.sh.dev.(minimized := true))
  {
  }

  /** A call that does not fit, a change that needs no guard or a guarded one made without it, does nothing. */
  lemma {:induction false} MisplacedCalls(c: Conf, s: Sys, t: Tid, op: Op)
    requires Undisturbed(s, t)
    ensures !Guarded(op) ==> Next(c, s, Begin(t, Change(op))) == s
    ensures Guarded(op) || op.OpInvalidateTime? ==> Next(c, s, Begin(t, Direct(op))) == s
  {
    hide Guarded;
  }

  // --- what is in flight -------------------------------------------------------------------------

  /** The burst in flight is the burst of some thread between its `consume` and the check after its send. */
  ghost predicate FlownByAThread(s: Sys) {
    s.sh.inFlight.Some? ==> exists t :: t in s.threads && InWindow(s.threads[t].pc) && s.threads[t].pc.burst.id == s.sh.inFlight.value
  }

  /** A step keeps what is in flight, or is that of the burst that takes off or lands. */
  lemma StepInFlight(c: Conf, sh: Shared, t: Tid, th: Thread, ok: bool)
    requires WindowOk(sh, th.pc)
    ensures var o := Step(c, sh, t, th, ok);
            && (InWindow(o.th.pc) ==> o.sh.inFlight == Some(o.th.pc.burst.id))
            && (!InWindow(o.th.pc) && InWindow(th.pc) ==> o.sh.inFlight == None)
            && (!InWindow(o.th.pc) && !InWindow(th.pc) ==> o.sh.inFlight == sh.inFlight)
  {
    match Part(th.pc)
    case Locked => LockedInFlight(c, sh, t, th, ok);
    case Ending => EndingInFlight(c, sh, t, th, ok);
    case _ => hide Apply, PlainApply, PrecheckOk, KnownTarget, QuietState, UnderLock, SendStep;
  }

  lemma LockedInFlight(c: Conf, sh: Shared, t: Tid, th: Thread, ok: bool)
    requires WindowOk(sh, th.pc) && Part(th.pc).Locked?
    ensures var o := UnderLock(c, sh, t, th, ok);
            && (InWindow(o.th.pc) ==> o.sh.inFlight == Some(o.th.pc.burst.id))
            && (!InWindow(o.th.pc) ==> o.sh.inFlight == None)
  {
    hide RfOk, NoCommandTime, Interrupted;
  }

  lemma EndingInFlight(c: Conf, sh: Shared, t: Tid, th: Thread, ok: bool)
    requires WindowOk(sh, th.pc) && Part(th.pc).Ending?
    ensures var o := SendStep(c, sh, t, th, ok);
            && (InWindow(o.th.pc) ==> o.sh.inFlight == Some(o.th.pc.burst.id))
            && (!InWindow(o.th.pc) && InWindow(th.pc) ==> o.sh.inFlight == None)
            && (!InWindow(o.th.pc) && !InWindow(th.pc) ==> o.sh.inFlight == sh.inFlight)
  {
    hide Interrupted;
  }

  lemma {:induction false} NextInFlight(c: Conf, s: Sys, l: Label)
    requires SysOk(c, s) && FlownByAThread(s)
    ensures FlownByAThread(Next(c, s, l))
  {
    var s' := Next(c, s, l);
    if s'.sh.inFlight.Some? {
      match l
      case Env(act) => assert s'.sh.inFlight == s.sh.inFlight;
      case Begin(t, call) =>
        var u :| u in s.threads && InWindow(s.threads[u].pc) && s.threads[u].pc.burst.id == s.sh.inFlight.value;
        assert s'.threads[u] == s.threads[u];
      case Go(t, ok) =>
        if t in s.threads {
          assert WindowOk(s.sh, s.threads[t].pc) by { assert ThreadOk(c, s.sh, t, s.threads[t]); }
          hide Step, SysOk, WindowOk;
          StepInFlight(c, s.sh, t, s.threads[t], ok);
          if InWindow(s'.threads[t].pc) {
            assert s'.threads[t].pc.burst.id == s'.sh.inFlight.value;
          } else {
            var u :| u in s.threads && InWindow(s.threads[u].pc) && s.threads[u].pc.burst.id == s.sh.inFlight.value;
            assert s'.threads[u] == s.threads[u];
          }
        }
    }
  }

  /** In every run. */
  lemma {:induction false} InFlightIsABurst(c: Conf, s: Sys, ls: seq<Label>)
    requires SysOk(c, s) && FlownByAThread(s)
    ensures FlownByAThread(RunAll(c, s, ls))
    decreases |ls|
  {
    if ls != [] {
      NextKeeps(c, s, ls[0]);
      NextInFlight(c, s, ls[0]);
      hide Next, SysOk, FlownByAThread;
      InFlightIsABurst(c, Next(c, s, ls[0]), ls[1..]);
    }
  }

  // --- what a burst has passed -----------------------------------------------------------------

  /** The first check of a burst lets it on exactly when the devices are open with both references set on each,
      tuned, with time on each where alignment is required, the permit's chains and start are acceptable, and the
      readings fit; otherwise the call ends with nothing changed. */
  lemma {:induction false} FirstCheckExactly(c: Conf, sh: Shared, t: Tid, k: nat, p: Permit)
    requires sh.lockOwner == None
    ensures var o := Step(c, sh, t, Thread(k, Precheck(p)), true);
            && (o.th.pc.ReadGen? <==>
                  && sh.b.open && sh.b.tuned && Tx in sh.b.tunedDirs
                  && (forall d :: d in c.cfg.devices ==> d.name in sh.b.clockSet && d.name in sh.b.timeSrcSet)
                  && (|c.cfg.devices| > 1 || !c.cfg.syncMethodNone ==>
                        c.cfg.devices != [] && forall d :: d in c.cfg.devices ==> d.name in sh.b.timeSet)
                  && p.chainsOk && p.startOk && Fits(c, sh.b, p) && p.devices !! sh.b.cmdTime.Keys)
            && (!o.th.pc.ReadGen? ==> o == Out(sh.(txOwner := if k > 0 then sh.txOwner else None), Thread(k, Idle)))
    ensures Step(c, sh, t, Thread(k, Precheck(p)), false) == Out(sh.(txOwner := if k > 0 then sh.txOwner else None), Thread(k, Idle))
  {
    hide Matches, Fits;
    MatchesExactly(c, sh.b, p);
    NamesAre(c.cfg, sh.b.clockSet);
    NamesAre(c.cfg, sh.b.timeSrcSet);
    NamesAre(c.cfg, sh.b.timeSet);
    hide DeviceNames;
  }

  lemma NamesAre(cfg: Cfg, names: set<string>)
    ensures DeviceNames(cfg) <= names <==> forall d :: d in cfg.devices ==> d.name in names
  {
    if DeviceNames(cfg) <= names {
      forall d | d in cfg.devices ensures d.name in names {
        var i :| 0 <= i < |cfg.devices| && cfg.devices[i] == d;
        assert d.name in DeviceNames(cfg);
      }
    }
  }

  /** `consume` lets a burst on exactly when TX is armed, and then it transmits; otherwise the call ends with nothing
      changed. */
  lemma {:induction false} ConsumedExactly(c: Conf, sh: Shared, t: Tid, k: nat, p: Permit, gen: nat, seen: nat, ok: bool)
    ensures var o := Step(c, sh, t, Thread(k, Consume(p, gen, seen)), ok);
            && (o.th.pc.EnterLock? <==> ok && sh.safety.state == Armed)
            && (o.th.pc.EnterLock? ==> o.sh.safety == Safety(Transmitting, sh.safety.tripGen) && o.sh.inFlight == Some(o.th.pc.burst.id)
                                       && o.th.pc.burst.permit == p && o.th.pc.burst.gen0 == gen)
            && (!o.th.pc.EnterLock? ==> o == Out(sh.(txOwner := if k > 0 then sh.txOwner else None), Thread(k, Idle)))
  {
  }

  /** TX goes on air only from ARMED, by a burst that consumes its permit. */
  lemma {:induction false} TransmittingOnlyFromArmed(c: Conf, s: Sys, l: Label)
    requires s.sh.safety.state != Transmitting && Next(c, s, l).sh.safety.state == Transmitting
    ensures l.Go? && l.ok && l.t in s.threads && s.threads[l.t].pc.Consume? && s.sh.safety.state == Armed
  {
    hide Apply, PrecheckOk, RfOk, NoCommandTime, Guarded, Entry, KnownTarget;
  }

  /** While the controller is disabled no burst begins. */
  lemma DisabledRefuses(c: Conf, s: Sys, t: Tid, p: Permit)
    requires s.sh.safety.state == Disabled && t in s.threads && s.threads[t].pc == Idle
    ensures Next(c, s, Begin(t, Transmit(p))) == s
  {
    assert s.threads[t := s.threads[t]] == s.threads;
  }

  /** A burst past its first check carries a permit whose chains and start were accepted. */
  predicate Accepted(pc: Pc) {
    && (pc.ReadGen? || pc.Consume? ==> pc.permit.chainsOk && pc.permit.startOk)
    && (InBurst(pc) ==> pc.burst.permit.chainsOk && pc.burst.permit.startOk)
  }

  lemma StepAccepted(c: Conf, sh: Shared, t: Tid, th: Thread, ok: bool)
    requires Accepted(th.pc)
    ensures Accepted(Step(c, sh, t, th, ok).th.pc)
  {
    match Part(th.pc)
    case Locked => AcceptedUnderLock(c, sh, t, th, ok);
    case Ending => AcceptedAtTheEnd(c, sh, t, th, ok);
    case Starting => AcceptedFirst(c, sh, t, th, ok);
    case _ => hide Apply, KnownTarget, QuietState, PlainEffect, Shutdown, UnderLock, SendStep, BeforeConsume;
  }

  lemma AcceptedFirst(c: Conf, sh: Shared, t: Tid, th: Thread, ok: bool)
    requires Accepted(th.pc) && Part(th.pc).Starting?
    ensures Accepted(BeforeConsume(c, sh, t, th, ok).th.pc)
  {
    hide RfOk, NoCommandTime;
  }

  lemma AcceptedUnderLock(c: Conf, sh: Shared, t: Tid, th: Thread, ok: bool)
    requires Accepted(th.pc) && Part(th.pc).Locked?
    ensures Accepted(UnderLock(c, sh, t, th, ok).th.pc)
  {
    hide RfOk, NoCommandTime, Interrupted;
  }

  lemma AcceptedAtTheEnd(c: Conf, sh: Shared, t: Tid, th: Thread, ok: bool)
    requires Accepted(th.pc) && Part(th.pc).Ending?
    ensures Accepted(SendStep(c, sh, t, th, ok).th.pc)
  {
    hide Interrupted;
  }

  lemma EntryAccepted(sh: Shared, th: Thread, call: Call)
    ensures Accepted(Entry(sh, th, call))
  {
    hide Guarded;
  }

  lemma {:induction false} AcceptedThroughout(c: Conf, s: Sys, ls: seq<Label>, t: Tid)
    requires (forall u :: u in s.threads ==> Accepted(s.threads[u].pc)) && t in RunAll(c, s, ls).threads
    ensures Accepted(RunAll(c, s, ls).threads[t].pc)
    decreases |ls|
  {
    if ls != [] {
      var l := ls[0];
      if l.Go? && l.t in s.threads {
        StepAccepted(c, s.sh, l.t, s.threads[l.t], l.ok);
      }
      if l.Begin? && l.t in s.threads {
        EntryAccepted(s.sh, s.threads[l.t], l.call);
      }
      hide Step, Entry, Accepted;
      AcceptedThroughout(c, Next(c, s, l), ls[1..], t);
    }
  }

  /** In every run, whatever is transmitted was accepted. */
  lemma {:induction false} BurstsAreAccepted(c: Conf, s: Sys, ls: seq<Label>, t: Tid)
    requires Initial(s) && t in RunAll(c, s, ls).threads && AtSend(RunAll(c, s, ls).threads[t].pc)
    ensures RunAll(c, s, ls).threads[t].pc.burst.permit.chainsOk && RunAll(c, s, ls).threads[t].pc.burst.permit.startOk
  {
    AcceptedThroughout(c, s, ls, t);
    hide RunAll;
  }

  /** An undisturbed burst, from idle to idle: nothing is left in flight, no lock is held, and the backend has a
      streamer more. */
  lemma {:induction false} ArmedBurstCompletes(c: Conf, s: Sys, t: Tid, p: Permit)
    requires t in s.threads && s.threads[t] == Thread(0, Idle) && PrecheckOk(c, s.sh.b, p)
    requires s.sh.safety.state.Safe? && s.sh.txOwner == None && s.sh.lockOwner == None && s.sh.inFlight == None
    ensures var s' := RunAll(c, s, ArmAndTransmit(t, p) + Gos(t, 5));
            && s'.threads == s.threads && s'.sh.txOwner == None && s'.sh.lockOwner == None && s'.sh.inFlight == None
            && s'.sh.b == s.sh.b.(txStreamer := true)
  {
    hide *;
    ArmedBurstReachesSend(c, s, t, p);
    var sent := RunAll(c, s, ArmAndTransmit(t, p));
    var bu := Burst(s.sh.bursts, p, s.sh.safety.tripGen, s.sh.opens, s.sh.drops);
    SentIs(s, sent, t, p);
    BurstEnds(c, sent.sh, t, bu);
    AdvanceIsARun(c, sent, t, 5);
    RunJoins(c, s, ArmAndTransmit(t, p), Gos(t, 5));
    AdvancedTo(c, sent, t, 5);
    assert sent.threads[t := Thread(0, Idle)] == s.threads;
  }

  lemma SentIs(s: Sys, s': Sys, t: Tid, p: Permit)
    requires SentFrom(s, s', t, p)
    ensures var bu := Burst(s.sh.bursts, p, s.sh.safety.tripGen, s.sh.opens, s.sh.drops);
            && s'.threads == s.threads[t := Thread(0, Send(bu))] && s'.sh.safety == Safety(Transmitting, bu.gen0)
            && s'.sh.lockOwner == None && s'.sh.b == s.sh.b.(txStreamer := true)
  {
  }

  lemma AdvancedTo(c: Conf, s: Sys, t: Tid, n: nat)
    requires t in s.threads
    ensures var o := Steps(c, Out(s.sh, s.threads[t]), t, n); Advance(c, s, t, n) == Sys(s.threads[t := o.th], o.sh)
  {
    hide Steps;
  }

  lemma {:induction false} BurstEnds(c: Conf, sh: Shared, t: Tid, bu: Burst)
    requires sh.safety == Safety(Transmitting, bu.gen0) && sh.lockOwner == None
    ensures Steps(c, Out(sh, Thread(0, Send(bu))), t, 5) == Out(sh.(inFlight := None, txOwner := None), Thread(0, Idle))
  {
    hide Step, Steps;
    EndingStep(c, sh, t, 0, Send(bu), 4, Out(sh, Thread(0, Sending(bu))));
    EndingStep(c, sh, t, 0, Sending(bu), 3, Out(sh, Thread(0, FinalCheck(bu))));
    LastSteps(c, sh, t, bu);
  }

  lemma LastSteps(c: Conf, sh: Shared, t: Tid, bu: Burst)
    requires sh.safety == Safety(Transmitting, bu.gen0)
    ensures Steps(c, Out(sh, Thread(0, FinalCheck(bu))), t, 3) == Out(sh.(inFlight := None, txOwner := None), Thread(0, Idle))
  {
    hide Step, Steps;
    var sh' := sh.(inFlight := None);
    var o := Out(sh.(inFlight := None, txOwner := None), Thread(0, Idle));
    EndingStep(c, sh, t, 0, FinalCheck(bu), 2, Out(sh', Thread(0, Completing(bu))));
    EndingStep(c, sh', t, 0, Completing(bu), 1, Out(sh', Thread(0, Returning(bu))));
    EndingStep(c, sh', t, 0, Returning(bu), 0, o);
    NoSteps(c, o, t);
  }
}
