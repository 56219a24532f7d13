/** What the transmit protocol promises in every run of any number of threads and the safety controller. */
module TxSafety {
  import opened Results
  import opened LoPlans
  import opened Backends
  import opened TxProtocol
  import opened TxRely

  /** No two threads are inside the transmit lock, command windows included, nor inside `_lock`, in any run. */
  lemma {:induction false} MutualExclusion(c: Conf, s: Sys, ls: seq<Label>, t: Tid, u: Tid)
    requires Initial(s)
    requires var s' := RunAll(c, s, ls); t in s'.threads && u in s'.threads && t != u
    ensures var s' := RunAll(c, s, ls);
            && !((HoldsTx(s'.threads[t].pc) || s'.threads[t].depth > 0) && (HoldsTx(s'.threads[u].pc) || s'.threads[u].depth > 0))
            && !(HoldsLock(s'.threads[t].pc) && HoldsLock(s'.threads[u].pc))
  {
    InitialOk(c, s);
    RunKeeps(c, s, ls);
    var s' := RunAll(c, s, ls);
    assert ThreadOk(c, s'.sh, t, s'.threads[t]) && ThreadOk(c, s'.sh, u, s'.threads[u]);
  }

  // --- what a permit authorizes, on the readings ------------------------------------------------

  /** The device TX rate is the permit's up to one part in 10^9 of the reading (of 1 at least), the tuned
      centre up to 1 Hz and, where the policy authorizes an LO offset, that up to 1 Hz. */
  predicate Fits(c: Conf, b: Backend, p: Permit) {
    var fs, fc, lo := Rate(c.cfg, b, Tx), TunedFreq(c.cfg, b, Tx), TunedLoOffset(c.cfg, b, Tx);
    var scale := if fs > 1.0 then fs else if fs < -1.0 then -fs else 1.0;
    && p.fs.Some? && -scale <= 1000000000.0 * (fs - p.fs.value) <= scale
    && p.fc.Some? && -1.0 <= fc - p.fc.value <= 1.0
    && (c.policyLo.Some? ==> -1.0 <= lo - c.policyLo.value <= 1.0)
  }

  /** The comparison of the code is that one. */
  lemma MatchesExactly(c: Conf, b: Backend, p: Permit)
    ensures Matches(c, b, p) <==> Fits(c, b, p)
  {
  }

  /** The configured rate, centre and LO offset, which count after an open, happen to fit the permit. */
  predicate DefaultsFit(c: Conf, p: Permit) {
    Fits(c, Fresh, p)
  }

  lemma NoTxFits(c: Conf, b: Backend, p: Permit)
    requires NoTx(b)
    ensures Fits(c, b, p) <==> DefaultsFit(c, p)
  {
  }

  /** The check under `_lock` goes on exactly when the readings fit, TX is tuned and no device of the permit has a
      command time; otherwise the burst is aborted. */
  lemma {:induction false} RfCheckedExactly(c: Conf, sh: Shared, t: Tid, k: nat, bu: Burst)
    ensures var o := Step(c, sh, t, Thread(k, CheckRf(bu)), true);
            && (o.th.pc.CheckStart? <==> Fits(c, sh.b, bu.permit) && Tx in sh.b.tunedDirs && bu.permit.devices !! sh.b.cmdTime.Keys)
            && (o.th.pc.CheckStart? || o.th.pc == Aborting(bu))
  {
    hide Matches, Fits;
    MatchesExactly(c, sh.b, bu.permit);
  }

  /** In every interleaving, while a burst is at its send or sending, the device TX rate, tuned centre and
      LO offset match its permit exactly when the devices were not opened anew since its last check, or are
      read back physically, or the configured values match as well. */
  lemma {:induction false} SendMatchesPermit(c: Conf, s: Sys, ls: seq<Label>, t: Tid)
    requires Initial(s)
    requires var s' := RunAll(c, s, ls); t in s'.threads && AtSend(s'.threads[t].pc)
    ensures var s' := RunAll(c, s, ls);
            var bu := s'.threads[t].pc.burst;
            Fits(c, s'.sh.b, bu.permit) <==> s'.sh.opens == bu.epoch || c.physical || DefaultsFit(c, bu.permit)
  {
    InitialOk(c, s);
    RunKeeps(c, s, ls);
    var s' := RunAll(c, s, ls);
    assert ThreadOk(c, s'.sh, t, s'.threads[t]);
    if NoTx(s'.sh.b) {
      NoTxFits(c, s'.sh.b, s'.threads[t].pc.burst.permit);
    }
    MatchesExactly(c, s'.sh.b, s'.threads[t].pc.burst.permit);
    hide Matches, RunAll, DefaultsFit, Fits;
  }

  /** A backend that reads its devices back: the match at the send is unconditional. */
  lemma {:induction false} PhysicalSendMatches(c: Conf, s: Sys, ls: seq<Label>, t: Tid)
    requires Initial(s) && c.physical
    requires var s' := RunAll(c, s, ls); t in s'.threads && AtSend(s'.threads[t].pc)
    ensures var s' := RunAll(c, s, ls); Fits(c, s'.sh.b, s'.threads[t].pc.burst.permit)
  {
    hide Fits, RunAll, DefaultsFit;
    SendMatchesPermit(c, s, ls, t);
  }

  /** A burst with no re-open between its check and its send goes out in the state it was authorized for. */
  lemma {:induction false} SendMatchesWithoutReopen(c: Conf, s: Sys, ls: seq<Label>, more: seq<Label>, t: Tid)
    requires Initial(s)
    requires var s1 := RunAll(c, s, ls);
             t in s1.threads && s1.threads[t].pc.CheckLast?
    requires var s1 := RunAll(c, s, ls);
             var s2 := RunAll(c, s1, more);
             && t in s2.threads && AtSend(s2.threads[t].pc)
             && s2.threads[t].pc.burst == s1.threads[t].pc.burst && s2.sh.opens == s1.sh.opens
    ensures var s2 := RunAll(c, RunAll(c, s, ls), more); Fits(c, s2.sh.b, s2.threads[t].pc.burst.permit)
  {
    InitialOk(c, s);
    RunKeeps(c, s, ls);
    var s1 := RunAll(c, s, ls);
    RunKeeps(c, s1, more);
    var s2 := RunAll(c, s1, more);
    assert ThreadOk(c, s1.sh, t, s1.threads[t]) && ThreadOk(c, s2.sh, t, s2.threads[t]);
    MatchesExactly(c, s2.sh.b, s2.threads[t].pc.burst.permit);
    hide Matches, RunAll, Fits;
  }

  /** While a burst is at its send or sending, TX is tuned and time is aligned where required exactly when
      neither an open nor a time invalidation landed since the burst was first checked. */
  lemma {:induction false} SendIsAlignedExactly(c: Conf, s: Sys, ls: seq<Label>, t: Tid)
    requires Initial(s)
    requires var s' := RunAll(c, s, ls); t in s'.threads && AtSend(s'.threads[t].pc)
    ensures var s' := RunAll(c, s, ls);
            Ready(c, s'.sh.b) <==> s'.sh.drops == s'.threads[t].pc.burst.seen
  {
    InitialOk(c, s);
    RunKeeps(c, s, ls);
    var s' := RunAll(c, s, ls);
    assert ThreadOk(c, s'.sh, t, s'.threads[t]);
    hide Matches, RunAll;
    assert TimeAsserted(c, s'.sh, s'.threads[t].pc.burst.seen);
  }

  /** Whenever a burst writes TX gains, the RF state matches its permit, TX is tuned and no command time is
      set on its devices. */
  lemma {:induction false} GainWriteIsAuthorized(c: Conf, s: Sys, ls: seq<Label>, t: Tid)
    requires Initial(s)
    requires var s' := RunAll(c, s, ls); t in s'.threads && s'.threads[t].pc.WriteGain?
    ensures var s' := RunAll(c, s, ls);
            var p := s'.threads[t].pc.burst.permit;
            Fits(c, s'.sh.b, p) && Tx in s'.sh.b.tunedDirs && p.devices !! s'.sh.b.cmdTime.Keys
  {
    InitialOk(c, s);
    RunKeeps(c, s, ls);
    var s' := RunAll(c, s, ls);
    assert ThreadOk(c, s'.sh, t, s'.threads[t]);
    MatchesExactly(c, s'.sh.b, s'.threads[t].pc.burst.permit);
    hide Matches, RunAll, Fits;
  }

  lemma HitsGrow(c: Conf, s: Sys, l: Label)
    ensures s.sh.hits <= Next(c, s, l).sh.hits
  {
    hide Apply, PrecheckOk, RfOk, NoCommandTime, Guarded, Entry;
  }

  lemma {:induction false} HitsGrowOverRuns(c: Conf, s: Sys, ls: seq<Label>)
    ensures s.sh.hits <= RunAll(c, s, ls).sh.hits
    decreases |ls|
  {
    hide Next;
    if ls != [] {
      HitsGrow(c, s, ls[0]);
      HitsGrowOverRuns(c, Next(c, s, ls[0]), ls[1..]);
    }
  }

  /** A trip or disarm lands: the trip generation moves or TRANSMITTING is left. */
  predicate Lands(s: Safety, s': Safety) {
    s'.tripGen != s.tripGen || (s.state.Transmitting? && !s'.state.Transmitting?)
  }

  lemma SetSafetyHits(sh: Shared, s: Safety, id: nat)
    requires sh.inFlight == Some(id) && Lands(sh.safety, s)
    ensures id in SetSafety(sh, s).hits
  {
  }

  lemma {:induction false} StepLandingHits(c: Conf, sh: Shared, u: Tid, th: Thread, ok: bool, id: nat)
    requires LocksOk(sh, u, th) && sh.inFlight == Some(id)
    requires Lands(sh.safety, Step(c, sh, u, th, ok).sh.safety)
    ensures id in Step(c, sh, u, th, ok).sh.hits
  {
    hide Apply, PrecheckOk, RfOk, NoCommandTime, Guarded;
  }

  /** Whoever makes it land: the burst in flight is recorded as hit. */
  lemma {:induction false} LandingHits(c: Conf, s: Sys, l: Label, t: Tid)
    requires SysOk(c, s) && t in s.threads && InWindow(s.threads[t].pc)
    requires Lands(s.sh.safety, Next(c, s, l).sh.safety)
    ensures s.threads[t].pc.burst.id in Next(c, s, l).sh.hits
  {
    var id := s.threads[t].pc.burst.id;
    assert ThreadOk(c, s.sh, t, s.threads[t]);
    match l
    case Env(act) =>
      if act.MoveGen? {
        SetSafetyHits(s.sh, Safety(s.sh.safety.state, s.sh.safety.tripGen + 1), id);
      } else if act.Enter? && !act.state.Transmitting? {
        SetSafetyHits(s.sh, Safety(act.state, s.sh.safety.tripGen), id);
      }
    case Begin(_, _) =>
    case Go(u, ok) =>
      if u in s.threads {
        assert ThreadOk(c, s.sh, u, s.threads[u]);
        hide Step;
        StepLandingHits(c, s.sh, u, s.threads[u], ok, id);
      }
  }

  /** A trip or disarm, by the controller or by any thread, that lands on a burst between its `consume` and
      the check after its send: that burst never returns normally, however the run goes on. */
  lemma {:induction false} InterruptedBurstNeverReturns(c: Conf, s: Sys, ls: seq<Label>, l: Label, more: seq<Label>, t: Tid, u: Tid)
    requires Initial(s)
    requires var s1 := RunAll(c, s, ls);
             t in s1.threads && InWindow(s1.threads[t].pc) && Lands(s1.sh.safety, Next(c, s1, l).sh.safety)
    requires var s2 := RunAll(c, Next(c, RunAll(c, s, ls), l), more);
             u in s2.threads && (s2.threads[u].pc.Completing? || s2.threads[u].pc.Returning?)
    ensures var s1 := RunAll(c, s, ls);
            var s2 := RunAll(c, Next(c, s1, l), more);
            s2.threads[u].pc.burst.id != s1.threads[t].pc.burst.id
  {
    hide RunAll, Next, Lands, SysOk;
    InitialOk(c, s);
    RunKeeps(c, s, ls);
    var s1 := RunAll(c, s, ls);
    var s' := Next(c, s1, l);
    LandingHits(c, s1, l, t);
    NextKeeps(c, s1, l);
    RunKeeps(c, s', more);
    HitsGrowOverRuns(c, s', more);
    HitNeverReturns(c, RunAll(c, s', more), u);
  }

  lemma HitNeverReturns(c: Conf, s: Sys, u: Tid)
    requires SysOk(c, s) && u in s.threads && (s.threads[u].pc.Completing? || s.threads[u].pc.Returning?)
    ensures s.threads[u].pc.burst.id !in s.sh.hits
  {
    assert ThreadOk(c, s.sh, u, s.threads[u]);
  }

  // --- a burst stopped before its last check is not sent --------------------------------------------

  /** Past `consume`, not yet past the last check. */
  predicate BeforeSend(pc: Pc) {
    InWindow(pc) && !AtSend(pc) && !pc.FinalCheck?
  }

  /** Past `consume`, not yet past the check under `_lock`. */
  predicate BeforeGain(pc: Pc) {
    pc.EnterLock? || pc.CheckStop?
  }

  /** What is left of burst n is interrupted and not past its last check; with `early`, not past the check
      before its gains are written. */
  predicate Stopped(sh: Shared, th: Thread, n: nat, early: bool) {
    InWindow(th.pc) && th.pc.burst.id == n ==>
      BeforeSend(th.pc) && (early ==> BeforeGain(th.pc)) && Interrupted(sh.safety, th.pc.burst.gen0)
  }

  ghost predicate Doomed(s: Sys, n: nat, early: bool) {
    n < s.sh.bursts && forall t :: t in s.threads ==> Stopped(s.sh, s.threads[t], n, early)
  }

  /** An interruption is for good while the burst holds the transmit lock. */
  lemma InterruptedForGood(c: Conf, sh: Shared, sh': Shared, u: Tid, th: Thread, n: nat, early: bool)
    requires ThreadOk(c, sh, u, th) && Rely(c, u, sh, sh') && Stopped(sh, th, n, early)
    ensures Stopped(sh', th, n, early)
  {
    hide RfAsserted, RelyRf;
  }

  lemma {:induction false} OwnStepStopped(c: Conf, sh: Shared, t: Tid, th: Thread, ok: bool, n: nat, early: bool)
    requires Stopped(sh, th, n, early) && n < sh.bursts
    ensures Stopped(Step(c, sh, t, th, ok).sh, Step(c, sh, t, th, ok).th, n, early) && n < Step(c, sh, t, th, ok).sh.bursts
  {
    match Part(th.pc)
    case Locked => LockedStepStopped(c, sh, t, th, ok, n, early);
    case Ending => EndingStepStopped(c, sh, t, th, ok, n, early);
    case _ => OutsideStepStopped(c, sh, t, th, ok, n, early);
  }

  lemma OutsideStepStopped(c: Conf, sh: Shared, t: Tid, th: Thread, ok: bool, n: nat, early: bool)
    requires !Part(th.pc).Locked? && !Part(th.pc).Ending? && n < sh.bursts
    ensures var o := Step(c, sh, t, th, ok); Stopped(o.sh, o.th, n, early) && n < o.sh.bursts
  {
    hide Apply, PrecheckOk, Interrupted, KnownTarget, UnderLock, SendStep, QuietState;
    var o := Step(c, sh, t, th, ok);
    assert o.sh.bursts >= sh.bursts;
    assert InWindow(o.th.pc) ==> o.th.pc.EnterLock? && o.th.pc.burst.id == sh.bursts;
  }

  lemma EndingStepStopped(c: Conf, sh: Shared, t: Tid, th: Thread, ok: bool, n: nat, early: bool)
    requires Part(th.pc).Ending? && Stopped(sh, th, n, early) && n < sh.bursts
    ensures var o := SendStep(c, sh, t, th, ok); Stopped(o.sh, o.th, n, early) && n < o.sh.bursts
  {
    hide Interrupted;
  }

  lemma LockedStepStopped(c: Conf, sh: Shared, t: Tid, th: Thread, ok: bool, n: nat, early: bool)
    requires Part(th.pc).Locked? && Stopped(sh, th, n, early) && n < sh.bursts
    ensures var o := UnderLock(c, sh, t, th, ok); Stopped(o.sh, o.th, n, early) && n < o.sh.bursts
  {
    hide RfOk, NoCommandTime;
  }

  lemma {:induction false} DoomedKept(c: Conf, s: Sys, l: Label, n: nat, early: bool)
    requires SysOk(c, s) && Doomed(s, n, early)
    ensures Doomed(Next(c, s, l), n, early)
  {
    match l
    case Env(act) =>
      var sh' := EnvStep(s.sh, act);
      assert sh'.bursts == s.sh.bursts;
      hide ThreadOk, Rely, EnvStep, Stopped;
      forall u | u in s.threads ensures Stopped(sh', s.threads[u], n, early) {
        EnvGrants(c, s.sh, act, u);
        InterruptedForGood(c, s.sh, sh', u, s.threads[u], n, early);
      }
    case Begin(_, _) =>
    case Go(t, ok) =>
      if t in s.threads {
        hide SysOk, Step, Stopped, EnvStep, Entry;
        GoKeepsDoomed(c, s, t, ok, n, early);
      }
  }

  lemma {:induction false} GoKeepsDoomed(c: Conf, s: Sys, t: Tid, ok: bool, n: nat, early: bool)
    requires SysOk(c, s) && Doomed(s, n, early) && t in s.threads
    ensures var o := Step(c, s.sh, t, s.threads[t], ok);
            && Stopped(o.sh, o.th, n, early) && n < o.sh.bursts
            && forall u :: u in s.threads && u != t ==> Stopped(o.sh, s.threads[u], n, early)
  {
    var th := s.threads[t];
    hide ThreadOk, Rely, Step, LocksOk, WindowOk, Stopped;
    OwnStepStopped(c, s.sh, t, th, ok, n, early);
    LocksOf(c, s.sh, t, th);
    var o := Step(c, s.sh, t, th, ok);
    forall u | u in s.threads && u != t ensures Stopped(o.sh, s.threads[u], n, early) {
      StepGrants(c, s.sh, t, th, ok, u);
      InterruptedForGood(c, s.sh, o.sh, u, s.threads[u], n, early);
    }
  }

  lemma LocksOf(c: Conf, sh: Shared, t: Tid, th: Thread)
    requires ThreadOk(c, sh, t, th)
    ensures LocksOk(sh, t, th) && WindowOk(sh, th.pc)
  {
    hide LocksOk, WindowOk, RfAsserted;
  }

  lemma {:induction false} DoomedForGood(c: Conf, s: Sys, ls: seq<Label>, n: nat, early: bool)
    requires SysOk(c, s) && Doomed(s, n, early)
    ensures Doomed(RunAll(c, s, ls), n, early)
    decreases |ls|
  {
    if ls != [] {
      NextKeeps(c, s, ls[0]);
      DoomedKept(c, s, ls[0], n, early);
      hide Next, SysOk, Doomed;
      DoomedForGood(c, Next(c, s, ls[0]), ls[1..], n, early);
    }
  }

  lemma DoomedNow(c: Conf, s: Sys, t: Tid, early: bool)
    requires SysOk(c, s) && t in s.threads && BeforeSend(s.threads[t].pc) && (early ==> BeforeGain(s.threads[t].pc))
    requires Interrupted(s.sh.safety, s.threads[t].pc.burst.gen0)
    ensures Doomed(s, s.threads[t].pc.burst.id, early)
  {
    hide RfAsserted;
    assert ThreadOk(c, s.sh, t, s.threads[t]);
    forall u | u in s.threads ensures Stopped(s.sh, s.threads[u], s.threads[t].pc.burst.id, early) {
      assert ThreadOk(c, s.sh, u, s.threads[u]);
    }
  }

  lemma {:induction false} StoppedForGood(c: Conf, s: Sys, ls: seq<Label>, more: seq<Label>, t: Tid, u: Tid, early: bool)
    requires Initial(s)
    requires var s1 := RunAll(c, s, ls);
             && t in s1.threads && BeforeSend(s1.threads[t].pc) && (early ==> BeforeGain(s1.threads[t].pc))
             && (s1.sh.safety.tripGen != s1.threads[t].pc.burst.gen0 || s1.sh.safety.state != Transmitting)
    requires u in RunAll(c, RunAll(c, s, ls), more).threads
    ensures var s1 := RunAll(c, s, ls);
            var s2 := RunAll(c, s1, more);
            Stopped(s2.sh, s2.threads[u], s1.threads[t].pc.burst.id, early)
  {
    hide RunAll, SysOk, Stopped;
    InitialOk(c, s);
    RunKeeps(c, s, ls);
    var s1 := RunAll(c, s, ls);
    DoomedNow(c, s1, t, early);
    DoomedForGood(c, s1, more, s1.threads[t].pc.burst.id, early);
  }

  /** A burst interrupted before its last check is never sent, however the run goes on. */
  lemma {:induction false} InterruptedBurstIsNotSent(c: Conf, s: Sys, ls: seq<Label>, more: seq<Label>, t: Tid, u: Tid)
    requires Initial(s)
    requires var s1 := RunAll(c, s, ls);
             && t in s1.threads && BeforeSend(s1.threads[t].pc)
             && (s1.sh.safety.tripGen != s1.threads[t].pc.burst.gen0 || s1.sh.safety.state != Transmitting)
    requires var s2 := RunAll(c, RunAll(c, s, ls), more);
             u in s2.threads && AtSend(s2.threads[u].pc)
    ensures var s1 := RunAll(c, s, ls);
            RunAll(c, s1, more).threads[u].pc.burst.id != s1.threads[t].pc.burst.id
  {
    hide RunAll;
    StoppedForGood(c, s, ls, more, t, u, false);
  }

  /** A burst interrupted before its check under `_lock` never writes gains, however the run goes on. */
  lemma {:induction false} InterruptedBurstWritesNoGain(c: Conf, s: Sys, ls: seq<Label>, more: seq<Label>, t: Tid, u: Tid)
    requires Initial(s)
    requires var s1 := RunAll(c, s, ls);
             && t in s1.threads && (s1.threads[t].pc.EnterLock? || s1.threads[t].pc.CheckStop?)
             && (s1.sh.safety.tripGen != s1.threads[t].pc.burst.gen0 || s1.sh.safety.state != Transmitting)
    requires var s2 := RunAll(c, RunAll(c, s, ls), more);
             u in s2.threads && s2.threads[u].pc.WriteGain?
    ensures var s1 := RunAll(c, s, ls);
            RunAll(c, s1, more).threads[u].pc.burst.id != s1.threads[t].pc.burst.id
  {
    hide RunAll;
    StoppedForGood(c, s, ls, more, t, u, true);
  }

  // --- a burst that failed ------------------------------------------------------------------------

  /** What is left of burst n is on its way out by the failure handler. */
  predicate Lost(th: Thread, n: nat) {
    InBurst(th.pc) && th.pc.burst.id == n ==> th.pc.Aborting? || th.pc.Minimizing? || th.pc.Raising?
  }

  ghost predicate AllLost(s: Sys, n: nat) {
    n < s.sh.bursts && forall t :: t in s.threads ==> Lost(s.threads[t], n)
  }

  lemma StepLost(c: Conf, sh: Shared, t: Tid, th: Thread, ok: bool, n: nat)
    requires Lost(th, n) && n < sh.bursts
    ensures var o := Step(c, sh, t, th, ok); Lost(o.th, n) && n < o.sh.bursts
  {
    match Part(th.pc)
    case Locked => LockedStepLost(c, sh, t, th, ok, n);
    case Ending => EndingStepLost(c, sh, t, th, ok, n);
    case _ => OutsideStepLost(c, sh, t, th, ok, n);
  }

  lemma OutsideStepLost(c: Conf, sh: Shared, t: Tid, th: Thread, ok: bool, n: nat)
    requires !Part(th.pc).Locked? && !Part(th.pc).Ending? && n < sh.bursts
    ensures var o := Step(c, sh, t, th, ok); Lost(o.th, n) && n < o.sh.bursts
  {
    hide Apply, PrecheckOk, KnownTarget, QuietState, UnderLock, SendStep;
    var o := Step(c, sh, t, th, ok);
    assert InBurst(o.th.pc) ==> o.th.pc.EnterLock? && o.th.pc.burst.id == sh.bursts;
  }

  lemma LockedStepLost(c: Conf, sh: Shared, t: Tid, th: Thread, ok: bool, n: nat)
    requires Part(th.pc).Locked? && Lost(th, n) && n < sh.bursts
    ensures var o := UnderLock(c, sh, t, th, ok); Lost(o.th, n) && n < o.sh.bursts
  {
    hide RfOk, NoCommandTime, Interrupted;
  }

  lemma EndingStepLost(c: Conf, sh: Shared, t: Tid, th: Thread, ok: bool, n: nat)
    requires Part(th.pc).Ending? && Lost(th, n) && n < sh.bursts
    ensures var o := SendStep(c, sh, t, th, ok); Lost(o.th, n) && n < o.sh.bursts
  {
    hide Interrupted;
  }

  lemma {:induction false} LostForGood(c: Conf, s: Sys, ls: seq<Label>, n: nat)
    requires AllLost(s, n)
    ensures AllLost(RunAll(c, s, ls), n)
    decreases |ls|
  {
    if ls != [] {
      var l := ls[0];
      if l.Go? && l.t in s.threads {
        StepLost(c, s.sh, l.t, s.threads[l.t], l.ok, n);
      }
      assert AllLost(Next(c, s, l), n) by { hide Step, Lost, Entry; BeginLost(s, l, n); }
      hide Next, AllLost;
      LostForGood(c, Next(c, s, l), ls[1..], n);
    }
  }

  lemma BeginLost(s: Sys, l: Label, n: nat)
    ensures l.Begin? && l.t in s.threads ==> Lost(Thread(s.threads[l.t].depth, Entry(s.sh, s.threads[l.t], l.call)), n)
  {
    hide Guarded;
  }

  /** A hook or check that fails before the send, the gain readback for one, stops its burst: it is never sent and
      never returns normally, however the run goes on. */
  lemma {:induction false} FailedBurstIsNotSent(c: Conf, s: Sys, ls: seq<Label>, more: seq<Label>, t: Tid, u: Tid)
    requires Initial(s)
    requires var s1 := RunAll(c, s, ls); t in s1.threads && BeforeSend(s1.threads[t].pc)
    requires var s2 := RunAll(c, Next(c, RunAll(c, s, ls), Go(t, false)), more);
             u in s2.threads && (AtSend(s2.threads[u].pc) || s2.threads[u].pc.Completing? || s2.threads[u].pc.Returning?)
    ensures var s1 := RunAll(c, s, ls);
            RunAll(c, Next(c, s1, Go(t, false)), more).threads[u].pc.burst.id != s1.threads[t].pc.burst.id
  {
    hide RunAll;
    FailedIsLost(c, s, ls, t);
    var s1 := RunAll(c, s, ls);
    hide Next;
    LostForGood(c, Next(c, s1, Go(t, false)), more, s1.threads[t].pc.burst.id);
    var s2 := RunAll(c, Next(c, s1, Go(t, false)), more);
    assert Lost(s2.threads[u], s1.threads[t].pc.burst.id);
  }

  /** Nor does a burst whose send fails return normally. */
  lemma {:induction false} FailedSendNeverReturns(c: Conf, s: Sys, ls: seq<Label>, more: seq<Label>, t: Tid, u: Tid)
    requires Initial(s)
    requires var s1 := RunAll(c, s, ls); t in s1.threads && AtSend(s1.threads[t].pc)
    requires var s2 := RunAll(c, Next(c, RunAll(c, s, ls), Go(t, false)), more);
             u in s2.threads && (s2.threads[u].pc.Completing? || s2.threads[u].pc.Returning?)
    ensures var s1 := RunAll(c, s, ls);
            RunAll(c, Next(c, s1, Go(t, false)), more).threads[u].pc.burst.id != s1.threads[t].pc.burst.id
  {
    hide RunAll;
    FailedIsLost(c, s, ls, t);
    var s1 := RunAll(c, s, ls);
    hide Next;
    LostForGood(c, Next(c, s1, Go(t, false)), more, s1.threads[t].pc.burst.id);
    var s2 := RunAll(c, Next(c, s1, Go(t, false)), more);
    assert Lost(s2.threads[u], s1.threads[t].pc.burst.id);
  }

  lemma {:induction false} FailedIsLost(c: Conf, s: Sys, ls: seq<Label>, t: Tid)
    requires Initial(s)
    requires var s1 := RunAll(c, s, ls); t in s1.threads && (BeforeSend(s1.threads[t].pc) || AtSend(s1.threads[t].pc))
    ensures var s1 := RunAll(c, s, ls); AllLost(Next(c, s1, Go(t, false)), s1.threads[t].pc.burst.id)
  {
    InitialOk(c, s);
    RunKeeps(c, s, ls);
    var s1 := RunAll(c, s, ls);
    hide RunAll;
    FailedStep(c, s1.sh, t, s1.threads[t]);
    hide Step, SysOk;
    forall u | u in s1.threads && u != t ensures !InBurst(s1.threads[u].pc) {
      OnlyOneBurst(c, s1, t, u);
    }
    InFlightIsCounted(c, s1, t);
  }

  lemma FailedStep(c: Conf, sh: Shared, t: Tid, th: Thread)
    requires BeforeSend(th.pc) || AtSend(th.pc)
    ensures var o := Step(c, sh, t, th, false); o.th.pc.Aborting? && o.sh.bursts == sh.bursts
  {
    hide RfOk, NoCommandTime, Interrupted;
  }

  /** A thread inside a burst holds the transmit lock. */
  lemma OnlyOneBurst(c: Conf, s: Sys, t: Tid, u: Tid)
    requires SysOk(c, s) && t in s.threads && u in s.threads && t != u && InBurst(s.threads[t].pc)
    ensures !InBurst(s.threads[u].pc)
  {
    hide RfAsserted, WindowOk;
    assert ThreadOk(c, s.sh, t, s.threads[t]) && ThreadOk(c, s.sh, u, s.threads[u]);
  }

  lemma InFlightIsCounted(c: Conf, s: Sys, t: Tid)
    requires SysOk(c, s) && t in s.threads && InWindow(s.threads[t].pc)
    ensures s.threads[t].pc.burst.id < s.sh.bursts
  {
    hide RfAsserted, LocksOk;
    assert ThreadOk(c, s.sh, t, s.threads[t]);
  }

  /** A burst that raises after `consume` has executed the abort and the minimum gain after the last gain
      write, whoever wrote it. */
  lemma {:induction false} RaisingLeavesMinimumGain(c: Conf, s: Sys, ls: seq<Label>, t: Tid)
    requires Initial(s)
    requires var s' := RunAll(c, s, ls); t in s'.threads && s'.threads[t].pc.Raising?
    ensures RunAll(c, s, ls).sh.dev == Device(true, true)
  {
    InitialOk(c, s);
    RunKeeps(c, s, ls);
    var s' := RunAll(c, s, ls);
    assert ThreadOk(c, s'.sh, t, s'.threads[t]);
    hide RunAll;
  }

  /** Past `consume`, up to the end of the call. */
  predicate InBurst(pc: Pc) {
    InWindow(pc) || pc.Aborting? || pc.Minimizing? || pc.Raising? || pc.Completing? || pc.Returning?
  }

  /** In flight, a burst has only two ways out of the try block and the check after it: on to `Completing`,
      which needs an uninterrupted controller, or `Aborting`, which leads to `Raising`. */
  lemma {:induction false} WaysOut(c: Conf, sh: Shared, t: Tid, th: Thread, ok: bool)
    requires InWindow(th.pc) || th.pc.Aborting? || th.pc.Minimizing?
    ensures var pc := Step(c, sh, t, th, ok).th.pc;
            && (InWindow(pc) || pc.Aborting? || pc.Minimizing? || pc.Raising? || pc.Completing?)
            && pc.burst.id == th.pc.burst.id
            && (pc.Completing? ==> th.pc.FinalCheck? && !Interrupted(sh.safety, pc.burst.gen0))
            && (th.pc.Aborting? ==> pc.Minimizing?) && (th.pc.Minimizing? ==> pc.Raising?)
  {
    hide RfOk, NoCommandTime;
  }

  lemma {:induction false} HitLeavesByRaising(c: Conf, s: Sys, l: Label, t: Tid)
    requires SysOk(c, s) && t in s.threads && InBurst(s.threads[t].pc) && s.threads[t].pc.burst.id in s.sh.hits
    requires var s' := Next(c, s, l);
             t in s'.threads && !(InBurst(s'.threads[t].pc) && s'.threads[t].pc.burst.id == s.threads[t].pc.burst.id)
    ensures s.threads[t].pc.Raising? && Next(c, s, l).sh.dev == Device(true, true)
  {
    assert ThreadOk(c, s.sh, t, s.threads[t]);
    assert l.Go? && l.t == t by { hide Step, EnvStep, Entry; }
    if InWindow(s.threads[t].pc) || s.threads[t].pc.Aborting? || s.threads[t].pc.Minimizing? {
      WaysOut(c, s.sh, t, s.threads[t], l.ok);
      hide Step;
    } else {
      hide RfAsserted, LocksOk;
    }
  }

  /** The whole story of an interrupted burst: after a trip or disarm lands between its `consume` and the check
      after its send, the call ends only by raising, after the abort and the minimum gain. */
  lemma {:induction false} InterruptedBurstRaises(c: Conf, s: Sys, ls: seq<Label>, l: Label, more: seq<Label>, last: Label, t: Tid)
    requires Initial(s)
    requires var s1 := RunAll(c, s, ls);
             t in s1.threads && InWindow(s1.threads[t].pc) && Lands(s1.sh.safety, Next(c, s1, l).sh.safety)
    requires var s1 := RunAll(c, s, ls);
             var s2 := RunAll(c, Next(c, s1, l), more);
             var s3 := Next(c, s2, last);
             && t in s2.threads && InBurst(s2.threads[t].pc) && s2.threads[t].pc.burst.id == s1.threads[t].pc.burst.id
             && t in s3.threads && !(InBurst(s3.threads[t].pc) && s3.threads[t].pc.burst.id == s1.threads[t].pc.burst.id)
    ensures var s2 := RunAll(c, Next(c, RunAll(c, s, ls), l), more);
            s2.threads[t].pc.Raising? && Next(c, s2, last).sh.dev == Device(true, true)
  {
    hide RunAll, Next, Lands, SysOk;
    InitialOk(c, s);
    RunKeeps(c, s, ls);
    var s1 := RunAll(c, s, ls);
    var s' := Next(c, s1, l);
    LandingHits(c, s1, l, t);
    NextKeeps(c, s1, l);
    RunKeeps(c, s', more);
    HitsGrowOverRuns(c, s', more);
    HitLeavesByRaising(c, RunAll(c, s', more), last, t);
  }
}
