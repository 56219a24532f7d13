/** The invariant of the transmit protocol in every interleaving, by rely and guarantee: a thread keeps its
    own assertion (`OwnStep`), grants every other thread what that one relies on (`StepGrants`), and an
    assertion survives everything its thread relies on (`RelyKeeps`). */
module TxRely {
  import opened Results
  import opened LoPlans
  import opened Backends
  import opened TxProtocol

  // --- what a thread asserts -------------------------------------------------------------------

  predicate HoldsTx(pc: Pc) {
    match pc
    case Idle => false
    case Quiesce(_, held) => held
    case WaitTx(_) => false
    case TripFirst => false
    case WaitPlain(_) => false
    case WindowWaitTx(_, _) => false
    case WindowClear(_) => false
    case BurstWaitTx(_) => false
    case _ => true
  }

  predicate HoldsLock(pc: Pc) {
    pc.LiveCheck? || pc.Body? || pc.CheckStop? || pc.CheckRf? || Settled(pc)
  }

  /** Past the RF check, still under `_lock`. */
  predicate Settled(pc: Pc) {
    pc.CheckStart? || pc.WriteGain? || pc.Readback? || pc.CheckLast?
  }

  predicate AtSend(pc: Pc) {
    pc.Send? || pc.Sending?
  }

  /** Between `consume` and the check after the send. */
  predicate InWindow(pc: Pc) {
    pc.EnterLock? || pc.CheckStop? || pc.CheckRf? || Settled(pc) || AtSend(pc) || pc.FinalCheck?
  }

  /** No TX setting of this session: the configured values count. */
  predicate NoTx(b: Backend) {
    Tx !in b.rf.rate && Tx !in b.rf.center && Tx !in b.rf.loOffset
  }

  predicate SameEntry(m: map<Direction, real>, m': map<Direction, real>) {
    (Tx in m <==> Tx in m') && (Tx in m ==> m[Tx] == m'[Tx])
  }

  /** Time aligned where that is required, and TX tuned. */
  predicate Ready(c: Conf, b: Backend) {
    Tx in b.tunedDirs && (TimeRequired(c.cfg) ==> TimeOk(c.cfg, b))
  }

  /** Time alignment and the TX tune are gone. */
  predicate Dropped(b: Backend) {
    Tx !in b.tunedDirs && b.timeSet == {}
  }

  predicate SameTime(b: Backend, b': Backend) {
    (Tx in b.tunedDirs <==> Tx in b'.tunedDirs) && b.timeSet == b'.timeSet
  }

  /** Past the first check of a burst, up to the end of its send. */
  predicate Prechecked(pc: Pc) {
    pc.ReadGen? || pc.Consume? || (InWindow(pc) && !pc.FinalCheck?)
  }

  function SeenOf(pc: Pc): nat
    requires Prechecked(pc)
  {
    if pc.ReadGen? || pc.Consume? then pc.seen else pc.burst.seen
  }

  predicate SameTx(b: Backend, b': Backend) {
    SameEntry(b.rf.rate, b'.rf.rate) && SameEntry(b.rf.center, b'.rf.center) && SameEntry(b.rf.loOffset, b'.rf.loOffset)
  }

  ghost predicate LocksOk(sh: Shared, t: Tid, th: Thread) {
    && (sh.txOwner == Some(t) <==> th.depth > 0 || HoldsTx(th.pc))
    && (sh.lockOwner == Some(t) <==> HoldsLock(th.pc))
    && (th.pc.WindowClear? ==> th.depth > 0)
    && (th.pc.WaitPlain? ==> !Guarded(th.pc.op))
  }

  ghost predicate WindowOk(sh: Shared, pc: Pc) {
    && (InWindow(pc) ==>
          && sh.inFlight == Some(pc.burst.id) && pc.burst.gen0 <= sh.safety.tripGen
          && (pc.burst.id in sh.hits ==> Interrupted(sh.safety, pc.burst.gen0)))
    && (pc.Consume? ==> pc.gen <= sh.safety.tripGen)
    && (pc.Completing? || pc.Returning? ==> sh.inFlight == None && pc.burst.id !in sh.hits)
    && (pc.Minimizing? ==> sh.dev.aborted)
    && (pc.Raising? ==> sh.dev.aborted && sh.dev.minimized)
  }

  ghost predicate RfAsserted(c: Conf, sh: Shared, pc: Pc) {
    && (Settled(pc) ==> pc.burst.epoch == sh.opens && RfOk(c, sh.b, pc.burst.permit) && NoCommandTime(sh.b, pc.burst.permit))
    && (AtSend(pc) ==>
          && pc.burst.epoch <= sh.opens
          && (if pc.burst.epoch == sh.opens || c.physical then Matches(c, sh.b, pc.burst.permit) else NoTx(sh.b)))
    && (Prechecked(pc) ==> TimeAsserted(c, sh, SeenOf(pc)))
  }

  ghost predicate TimeAsserted(c: Conf, sh: Shared, seen: nat) {
    seen <= sh.drops && if seen == sh.drops then Ready(c, sh.b) else Dropped(sh.b)
  }

  ghost predicate ThreadOk(c: Conf, sh: Shared, t: Tid, th: Thread) {
    LocksOk(sh, t, th) && WindowOk(sh, th.pc) && RfAsserted(c, sh, th.pc)
  }

  ghost predicate SharedOk(sh: Shared) {
    && (forall id :: id in sh.hits ==> id < sh.bursts)
    && (sh.inFlight.Some? ==> sh.inFlight.value < sh.bursts)
  }

  ghost predicate SysOk(c: Conf, s: Sys) {
    SharedOk(s.sh) && forall t :: t in s.threads ==> ThreadOk(c, s.sh, t, s.threads[t])
  }

  // --- what a thread relies on -----------------------------------------------------------------

  /** What thread u may count on while others act. */
  ghost predicate Rely(c: Conf, u: Tid, sh: Shared, sh': Shared) {
    && (sh.txOwner == Some(u) <==> sh'.txOwner == Some(u))
    && (sh.lockOwner == Some(u) <==> sh'.lockOwner == Some(u))
    && sh.safety.tripGen <= sh'.safety.tripGen
    && (sh.lockOwner == Some(u) ==> sh'.b == sh.b && sh'.opens == sh.opens && sh'.drops == sh.drops)
    && (sh.txOwner == Some(u) ==> RelyTx(c, sh, sh'))
  }

  /** While it holds the transmit lock. */
  ghost predicate RelyTx(c: Conf, sh: Shared, sh': Shared) {
    && sh'.inFlight == sh.inFlight
    && (sh'.safety.state.Transmitting? ==> sh.safety.state.Transmitting?)
    && (sh.dev.aborted ==> sh'.dev.aborted) && (sh.dev.minimized ==> sh'.dev.minimized)
    && RelyRf(c, sh, sh')
    && (forall id :: id in sh'.hits && id !in sh.hits ==>
          sh.inFlight == Some(id) && (sh'.safety.tripGen > sh.safety.tripGen || !sh'.safety.state.Transmitting?))
  }

  /** The TX settings stay, unless an open resets them; time and TX tune stay, unless they are dropped. */
  ghost predicate RelyRf(c: Conf, sh: Shared, sh': Shared) {
    && sh.opens <= sh'.opens && sh.drops <= sh'.drops
    && (if sh'.opens == sh.opens || c.physical then SameTx(sh.b, sh'.b) else NoTx(sh'.b))
    && (if sh'.drops == sh.drops then SameTime(sh.b, sh'.b) else Dropped(sh'.b))
  }

  lemma SameTxMatches(c: Conf, b: Backend, b': Backend, p: Permit)
    requires SameTx(b, b')
    ensures Matches(c, b, p) <==> Matches(c, b', p)
    ensures NoTx(b) <==> NoTx(b')
  {
  }

  lemma TimeKept(c: Conf, sh: Shared, sh': Shared, u: Tid, seen: nat)
    requires TimeAsserted(c, sh, seen) && sh.txOwner == Some(u) && Rely(c, u, sh, sh')
    ensures TimeAsserted(c, sh', seen)
  {
    hide SameTx, NoTx, DeviceNames;
  }

  lemma {:induction false} RelyKeeps(c: Conf, sh: Shared, sh': Shared, u: Tid, th: Thread)
    requires ThreadOk(c, sh, u, th) && Rely(c, u, sh, sh')
    ensures ThreadOk(c, sh', u, th)
  {
    hide Matches, RfOk, NoCommandTime, Guarded;
    if AtSend(th.pc) {
      if sh.opens == sh'.opens || c.physical {
        SameTxMatches(c, sh.b, sh'.b, th.pc.burst.permit);
      }
    }
    if Prechecked(th.pc) {
      TimeKept(c, sh, sh', u, SeenOf(th.pc));
    }
    hide SameTx, NoTx, SameTime, Dropped, Ready, TimeAsserted;
  }

  // --- operations under `_lock` alone ------------------------------------------------------------

  lemma PlainKeepsTx(c: Conf, b: Backend, op: Op)
    requires !Guarded(op)
    ensures if op.OpOpen? && !b.open && op.hookOk && !c.physical then NoTx(PlainApply(c, b, op)) else SameTx(b, PlainApply(c, b, op))
  {
    hide DropTime, Close, SetClock, SetTimeSrc, LoadTimes, StartRx, SetCommandTimes, ClearCommandTimes, Report, NeedsBump, TuneAllowed, RateMoved;
  }

  lemma PlainKeepsTime(c: Conf, b: Backend, op: Op)
    requires !Guarded(op)
    ensures if (op.OpOpen? && !b.open && op.hookOk) || op.OpInvalidateTime? then Dropped(PlainApply(c, b, op))
            else SameTime(b, PlainApply(c, b, op))
  {
    hide DropTime, Close, SetClock, SetTimeSrc, LoadTimes, StartRx, SetCommandTimes, ClearCommandTimes, SetRate, Tune, SetLoSource, SetLoExport, SetIntDelay;
  }

  lemma PlainGrants(c: Conf, sh: Shared, op: Op, u: Tid)
    requires !Guarded(op) && sh.lockOwner.None?
    ensures Rely(c, u, sh, PlainEffect(c, sh, op))
  {
    PlainKeepsTx(c, sh.b, op);
    PlainKeepsTime(c, sh.b, op);
    hide PlainApply, SameTx, NoTx, SameTime, Dropped, Guarded;
  }

  lemma SafetyGrants(c: Conf, sh: Shared, s: Safety, u: Tid)
    requires s.tripGen >= sh.safety.tripGen && !(s.state.Transmitting? && !sh.safety.state.Transmitting?)
    ensures Rely(c, u, sh, SetSafety(sh, s))
  {
  }

  lemma ShutdownGrants(c: Conf, sh: Shared, st: TxState, u: Tid)
    requires !st.Transmitting?
    ensures Rely(c, u, sh, Shutdown(sh, st))
  {
    SafetyGrants(c, sh, Safety(st, sh.safety.tripGen + 1), u);
  }

  lemma EnvGrants(c: Conf, sh: Shared, act: EnvAct, u: Tid)
    ensures Rely(c, u, sh, EnvStep(sh, act))
  {
    match act
    case MoveGen => SafetyGrants(c, sh, Safety(sh.safety.state, sh.safety.tripGen + 1), u);
    case Enter(st) => if !st.Transmitting? { SafetyGrants(c, sh, Safety(st, sh.safety.tripGen), u); }
    case _ =>
  }

  // --- a step grants the others what they rely on ------------------------------------------------

  lemma {:induction false} StepGrants(c: Conf, sh: Shared, t: Tid, th: Thread, ok: bool, u: Tid)
    requires LocksOk(sh, t, th) && WindowOk(sh, th.pc) && u != t
    ensures Rely(c, u, sh, Step(c, sh, t, th, ok).sh)
  {
    match Part(th.pc)
    case Changing => ChangeGrants(c, sh, t, th, ok, u);
    case Plain => PlainPartGrants(c, sh, t, th, ok, u);
    case Window => WindowGrants(c, sh, t, th, ok, u);
    case Starting => StartingGrants(c, sh, t, th, ok, u);
    case Locked => LockedGrants(c, sh, t, th, ok, u);
    case Ending => EndingGrants(c, sh, t, th, ok, u);
  }

  lemma ChangeGrants(c: Conf, sh: Shared, t: Tid, th: Thread, ok: bool, u: Tid)
    requires LocksOk(sh, t, th) && u != t && Part(th.pc).Changing?
    ensures Rely(c, u, sh, ChangeStep(c, sh, t, th, ok).sh)
  {
    hide Apply, Guarded;
    if th.pc.Quiesce? {
      ShutdownGrants(c, sh, QuietState(th.pc.op), u);
      hide Shutdown;
    }
  }

  lemma PlainPartGrants(c: Conf, sh: Shared, t: Tid, th: Thread, ok: bool, u: Tid)
    requires LocksOk(sh, t, th) && u != t && Part(th.pc).Plain?
    ensures Rely(c, u, sh, PlainStep(c, sh, t, th, ok).sh)
  {
    if th.pc.WaitPlain? && sh.lockOwner.None? {
      PlainGrants(c, sh, th.pc.op, u);
    }
    ShutdownGrants(c, sh, Fault, u);
    hide Apply, Guarded, PlainEffect, Shutdown;
  }

  lemma WindowGrants(c: Conf, sh: Shared, t: Tid, th: Thread, ok: bool, u: Tid)
    requires LocksOk(sh, t, th) && u != t && Part(th.pc).Window?
    ensures Rely(c, u, sh, WindowStep(c, sh, t, th, ok).sh)
  {
    hide Apply, SameTx, NoTx, SameTime, Dropped;
    match th.pc
    case WindowWaitTx(_, _) =>
      SafetyGrants(c, sh, sh.safety, u);
    case WindowSet(target, at) =>
      if sh.lockOwner.None? {
        PlainGrants(c, sh, OpSetCommandTime(target, at, ok), u);
      }
    case WindowClear(target) =>
      if sh.lockOwner.None? {
        PlainGrants(c, sh, OpClearCommandTime(target, ok), u);
      }
  }

  lemma StartingGrants(c: Conf, sh: Shared, t: Tid, th: Thread, ok: bool, u: Tid)
    requires LocksOk(sh, t, th) && u != t && Part(th.pc).Starting?
    ensures Rely(c, u, sh, BeforeConsume(c, sh, t, th, ok).sh)
  {
    hide PrecheckOk;
  }

  lemma LockedGrants(c: Conf, sh: Shared, t: Tid, th: Thread, ok: bool, u: Tid)
    requires LocksOk(sh, t, th) && u != t && Part(th.pc).Locked?
    ensures Rely(c, u, sh, UnderLock(c, sh, t, th, ok).sh)
  {
    hide RfOk, NoCommandTime;
  }

  lemma EndingGrants(c: Conf, sh: Shared, t: Tid, th: Thread, ok: bool, u: Tid)
    requires LocksOk(sh, t, th) && u != t && Part(th.pc).Ending?
    ensures Rely(c, u, sh, SendStep(c, sh, t, th, ok).sh)
  {
  }

  // --- a step keeps the thread's own assertion ---------------------------------------------------

  lemma {:induction false} OwnStep(c: Conf, sh: Shared, t: Tid, th: Thread, ok: bool)
    requires ThreadOk(c, sh, t, th) && SharedOk(sh)
    ensures var o := Step(c, sh, t, th, ok); ThreadOk(c, o.sh, t, o.th) && SharedOk(o.sh)
  {
    match Part(th.pc)
    case Changing => OwnChange(c, sh, t, th, ok);
    case Plain => OwnPlain(c, sh, t, th, ok);
    case Window => OwnWindow(c, sh, t, th, ok);
    case Starting => OwnStart(c, sh, t, th, ok);
    case Locked => OwnLocked(c, sh, t, th, ok);
    case Ending => OwnEnding(c, sh, t, th, ok);
  }

  lemma OwnChange(c: Conf, sh: Shared, t: Tid, th: Thread, ok: bool)
    requires ThreadOk(c, sh, t, th) && SharedOk(sh) && Part(th.pc).Changing?
    ensures var o := ChangeStep(c, sh, t, th, ok); ThreadOk(c, o.sh, t, o.th) && SharedOk(o.sh)
  {
    hide Apply, Guarded, Matches, RfOk, NoCommandTime, TimeAsserted;
  }

  lemma OwnPlain(c: Conf, sh: Shared, t: Tid, th: Thread, ok: bool)
    requires ThreadOk(c, sh, t, th) && SharedOk(sh) && Part(th.pc).Plain?
    ensures var o := PlainStep(c, sh, t, th, ok); ThreadOk(c, o.sh, t, o.th) && SharedOk(o.sh)
  {
    hide Apply, Matches, RfOk, NoCommandTime, TimeAsserted;
    assert !Guarded(OpInvalidateTime);
    hide Guarded;
  }

  lemma OwnWindow(c: Conf, sh: Shared, t: Tid, th: Thread, ok: bool)
    requires ThreadOk(c, sh, t, th) && SharedOk(sh) && Part(th.pc).Window?
    ensures var o := WindowStep(c, sh, t, th, ok); ThreadOk(c, o.sh, t, o.th) && SharedOk(o.sh)
  {
    hide Apply, Guarded, Matches, RfOk, NoCommandTime, KnownTarget, TimeAsserted;
  }

  lemma OwnStart(c: Conf, sh: Shared, t: Tid, th: Thread, ok: bool)
    requires ThreadOk(c, sh, t, th) && SharedOk(sh) && Part(th.pc).Starting?
    ensures var o := BeforeConsume(c, sh, t, th, ok); ThreadOk(c, o.sh, t, o.th) && SharedOk(o.sh)
  {
    OwnStartLocks(c, sh, t, th, ok);
    OwnStartWindow(c, sh, t, th, ok);
    OwnStartRf(c, sh, t, th, ok);
    hide BeforeConsume, LocksOk, WindowOk, RfAsserted, SharedOk;
  }

  lemma OwnStartLocks(c: Conf, sh: Shared, t: Tid, th: Thread, ok: bool)
    requires LocksOk(sh, t, th) && Part(th.pc).Starting?
    ensures var o := BeforeConsume(c, sh, t, th, ok); LocksOk(o.sh, t, o.th)
  {
    hide PrecheckOk, Guarded;
  }

  lemma OwnStartWindow(c: Conf, sh: Shared, t: Tid, th: Thread, ok: bool)
    requires WindowOk(sh, th.pc) && SharedOk(sh) && Part(th.pc).Starting?
    ensures var o := BeforeConsume(c, sh, t, th, ok); WindowOk(o.sh, o.th.pc) && SharedOk(o.sh)
  {
    hide PrecheckOk;
  }

  lemma OwnStartRf(c: Conf, sh: Shared, t: Tid, th: Thread, ok: bool)
    requires RfAsserted(c, sh, th.pc) && Part(th.pc).Starting?
    ensures var o := BeforeConsume(c, sh, t, th, ok); RfAsserted(c, o.sh, o.th.pc)
  {
    assert th.pc.Precheck? && PrecheckOk(c, sh.b, th.pc.permit) ==> Ready(c, sh.b) && Ready(c, sh.b.(txStreamer := true));
    hide PrecheckOk, Matches, RfOk, NoCommandTime, Ready, Dropped;
  }

  lemma OwnLocked(c: Conf, sh: Shared, t: Tid, th: Thread, ok: bool)
    requires ThreadOk(c, sh, t, th) && SharedOk(sh) && Part(th.pc).Locked?
    ensures var o := UnderLock(c, sh, t, th, ok); ThreadOk(c, o.sh, t, o.th) && SharedOk(o.sh)
  {
    OwnLockedLocks(c, sh, t, th, ok);
    OwnLockedWindow(c, sh, t, th, ok);
    OwnLockedRf(c, sh, t, th, ok);
    hide UnderLock, LocksOk, WindowOk, RfAsserted;
  }

  lemma OwnLockedLocks(c: Conf, sh: Shared, t: Tid, th: Thread, ok: bool)
    requires ThreadOk(c, sh, t, th) && Part(th.pc).Locked?
    ensures var o := UnderLock(c, sh, t, th, ok); LocksOk(o.sh, t, o.th)
  {
    hide RfOk, NoCommandTime, Interrupted, WindowOk, RfAsserted;
  }

  lemma OwnLockedWindow(c: Conf, sh: Shared, t: Tid, th: Thread, ok: bool)
    requires ThreadOk(c, sh, t, th) && Part(th.pc).Locked?
    requires SharedOk(sh)
    ensures var o := UnderLock(c, sh, t, th, ok); WindowOk(o.sh, o.th.pc) && SharedOk(o.sh)
  {
    hide RfOk, NoCommandTime, LocksOk, RfAsserted;
  }

  lemma OwnLockedRf(c: Conf, sh: Shared, t: Tid, th: Thread, ok: bool)
    requires ThreadOk(c, sh, t, th) && Part(th.pc).Locked?
    ensures var o := UnderLock(c, sh, t, th, ok); RfAsserted(c, o.sh, o.th.pc)
  {
    assert RfOk(c, sh.b, th.pc.burst.permit) ==> Matches(c, sh.b, th.pc.burst.permit);
    hide Matches, RfOk, NoCommandTime, Interrupted, LocksOk, WindowOk, Ready, Dropped;
  }

  lemma OwnEnding(c: Conf, sh: Shared, t: Tid, th: Thread, ok: bool)
    requires ThreadOk(c, sh, t, th) && SharedOk(sh) && Part(th.pc).Ending?
    ensures var o := SendStep(c, sh, t, th, ok); ThreadOk(c, o.sh, t, o.th) && SharedOk(o.sh)
  {
    OwnEndingLocks(c, sh, t, th, ok);
    OwnEndingWindow(c, sh, t, th, ok);
    OwnEndingRf(c, sh, t, th, ok);
    hide SendStep, LocksOk, WindowOk, RfAsserted, SharedOk;
  }

  lemma OwnEndingLocks(c: Conf, sh: Shared, t: Tid, th: Thread, ok: bool)
    requires LocksOk(sh, t, th) && Part(th.pc).Ending?
    ensures var o := SendStep(c, sh, t, th, ok); LocksOk(o.sh, t, o.th)
  {
    hide Guarded, Interrupted;
  }

  lemma OwnEndingWindow(c: Conf, sh: Shared, t: Tid, th: Thread, ok: bool)
    requires WindowOk(sh, th.pc) && SharedOk(sh) && Part(th.pc).Ending?
    ensures var o := SendStep(c, sh, t, th, ok); WindowOk(o.sh, o.th.pc) && SharedOk(o.sh)
  {
  }

  lemma OwnEndingRf(c: Conf, sh: Shared, t: Tid, th: Thread, ok: bool)
    requires RfAsserted(c, sh, th.pc) && Part(th.pc).Ending?
    ensures var o := SendStep(c, sh, t, th, ok); RfAsserted(c, o.sh, o.th.pc)
  {
    hide Matches, RfOk, NoCommandTime, Ready, Dropped, Interrupted;
  }

  // --- all runs ------------------------------------------------------------------------------------

  lemma BeginOk(c: Conf, sh: Shared, t: Tid, th: Thread, call: Call)
    requires ThreadOk(c, sh, t, th) && th.pc.Idle?
    ensures ThreadOk(c, sh, t, Thread(th.depth, Entry(sh, th, call)))
  {
    hide Guarded;
  }

  lemma EnvKeepsShared(sh: Shared, act: EnvAct)
    requires SharedOk(sh)
    ensures SharedOk(EnvStep(sh, act))
  {
  }

  lemma {:induction false} NextKeeps(c: Conf, s: Sys, l: Label)
    requires SysOk(c, s)
    ensures SysOk(c, Next(c, s, l))
  {
    match l
    case Env(act) =>
      EnvKeepsShared(s.sh, act);
      hide ThreadOk, Rely, EnvStep, SharedOk;
      forall u | u in s.threads ensures ThreadOk(c, EnvStep(s.sh, act), u, s.threads[u]) {
        EnvGrants(c, s.sh, act, u);
        RelyKeeps(c, s.sh, EnvStep(s.sh, act), u, s.threads[u]);
      }
    case Begin(t, call) =>
      if t in s.threads && s.threads[t].pc.Idle? {
        BeginOk(c, s.sh, t, s.threads[t], call);
      }
      hide ThreadOk, Entry;
    case Go(t, ok) =>
      if t in s.threads {
        var th := s.threads[t];
        OwnStep(c, s.sh, t, th, ok);
        var o := Step(c, s.sh, t, th, ok);
        assert LocksOk(s.sh, t, th) && WindowOk(s.sh, th.pc) by { assert ThreadOk(c, s.sh, t, th); }
        hide ThreadOk, Rely, Step, LocksOk, WindowOk, SharedOk;
        forall u | u in s.threads && u != t ensures ThreadOk(c, o.sh, u, s.threads[u]) {
          StepGrants(c, s.sh, t, th, ok, u);
          RelyKeeps(c, s.sh, o.sh, u, s.threads[u]);
        }
      }
  }

  lemma {:induction false} RunKeeps(c: Conf, s: Sys, ls: seq<Label>)
    requires SysOk(c, s)
    ensures SysOk(c, RunAll(c, s, ls))
    decreases |ls|
  {
    if ls != [] {
      NextKeeps(c, s, ls[0]);
      hide Next, SysOk;
      RunKeeps(c, Next(c, s, ls[0]), ls[1..]);
    }
  }

  lemma InitialOk(c: Conf, s: Sys)
    requires Initial(s)
    ensures SysOk(c, s)
  {
  }
}
