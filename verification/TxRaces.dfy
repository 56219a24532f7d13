/** Where the promises of the transmit protocol end: operations that take the backend lock alone, between the
    last check of a burst and its send. */
module TxRaces {
  import opened Results
  import opened LoPlans
  import opened Backends
  import opened TxProtocol
  import opened TxSafety

  /** A close and an open by any other thread, which take `_lock` only, fit between the last check and the
      send: the burst then goes out at the configured values. */
  lemma {:induction false} ReopenAtSend(c: Conf, s: Sys, t: Tid, u: Tid)
    requires t in s.threads && s.threads[t].pc.Send?
    requires u in s.threads && u != t && s.threads[u].pc.Idle? && s.sh.lockOwner == None
    requires !c.physical && !DefaultsFit(c, s.threads[t].pc.burst.permit)
    ensures var s' := RunAll(c, s, [Begin(u, Direct(OpClose)), Go(u, true), Begin(u, Direct(OpOpen(true, true))), Go(u, true), Go(t, true)]);
            && t in s'.threads && s'.threads[t].pc == Sending(s.threads[t].pc.burst)
            && !Fits(c, s'.sh.b, s.threads[t].pc.burst.permit)
  {
    hide Fits, DefaultsFit, RunAll;
    DirectCall(c, s, u, OpClose);
    var s2 := Next(c, Next(c, s, Begin(u, Direct(OpClose))), Go(u, true));
    DirectCall(c, s2, u, OpOpen(true, true));
    var s4 := Next(c, Next(c, s2, Begin(u, Direct(OpOpen(true, true)))), Go(u, true));
    assert s4.sh.b.rf == NoRf;
    hide Apply;
    NoTxFits(c, s4.sh.b, s.threads[t].pc.burst.permit);
    assert Step(c, s4.sh, t, s4.threads[t], true) == Out(s4.sh, Thread(s.threads[t].depth, Sending(s.threads[t].pc.burst)));
    hide Step;
    RunFive(c, s, Begin(u, Direct(OpClose)), Go(u, true), Begin(u, Direct(OpOpen(true, true))), Go(u, true), Go(t, true));
  }

  /** A call under `_lock` alone, on a thread that is idle while `_lock` is free. */
  lemma DirectCall(c: Conf, s: Sys, u: Tid, op: Op)
    requires u in s.threads && s.threads[u].pc.Idle? && s.sh.lockOwner == None && !Guarded(op) && !op.OpInvalidateTime?
    ensures Next(c, Next(c, s, Begin(u, Direct(op))), Go(u, true)) == Sys(s.threads, PlainEffect(c, s.sh, op))
  {
    hide Apply;
    var s' := Next(c, s, Begin(u, Direct(op)));
    assert s'.threads[u] == Thread(s.threads[u].depth, WaitPlain(op)) && s'.sh == s.sh;
    assert Step(c, s.sh, u, s'.threads[u], true) == Out(PlainEffect(c, s.sh, op), s.threads[u]);
    hide Step, PlainEffect;
    assert s'.threads[u := s.threads[u]] == s.threads;
  }

  lemma RunFive(c: Conf, s: Sys, a: Label, b: Label, d: Label, e: Label, f: Label)
    ensures RunAll(c, s, [a, b, d, e, f]) == Next(c, Next(c, Next(c, Next(c, Next(c, s, a), b), d), e), f)
  {
    hide Next;
    var s1 := Next(c, s, a);
    var s2 := Next(c, s1, b);
    var s3 := Next(c, s2, d);
    var s4 := Next(c, s3, e);
    RunFirst(c, s, a, [b, d, e, f]);
    RunFirst(c, s1, b, [d, e, f]);
    RunFirst(c, s2, d, [e, f]);
    RunFirst(c, s3, e, [f]);
    RunFirst(c, s4, f, []);
    assert [a] + [b, d, e, f] == [a, b, d, e, f] && [b] + [d, e, f] == [b, d, e, f];
    assert [d] + [e, f] == [d, e, f] && [e] + [f] == [e, f] && [f] + [] == [f];
    hide RunAll;
  }

  lemma RunFirst(c: Conf, s: Sys, a: Label, ls: seq<Label>)
    ensures RunAll(c, s, [a] + ls) == RunAll(c, Next(c, s, a), ls)
  {
    hide Next;
    assert ([a] + ls)[1..] == ls;
  }

  /** n steps of one thread in which every hook succeeds. */
  function Steps(c: Conf, o: Out, t: Tid, n: nat): Out
    decreases n
  {
    if n == 0 then o else Steps(c, Step(c, o.sh, t, o.th, true), t, n - 1)
  }

  function Advance(c: Conf, s: Sys, t: Tid, n: nat): Sys
    requires t in s.threads
  {
    var o := Steps(c, Out(s.sh, s.threads[t]), t, n);
    Sys(s.threads[t := o.th], o.sh)
  }

  /** Thread t goes n times, every hook succeeding. */
  function Gos(t: Tid, n: nat): seq<Label>
    decreases n
  {
    if n == 0 then [] else [Go(t, true)] + Gos(t, n - 1)
  }

  lemma {:induction false} AdvanceIsARun(c: Conf, s: Sys, t: Tid, n: nat)
    requires t in s.threads
    ensures RunAll(c, s, Gos(t, n)) == Advance(c, s, t, n)
    decreases n
  {
    hide Step;
    if n == 0 {
      assert Advance(c, s, t, 0).threads == s.threads;
    } else {
      var s' := Next(c, s, Go(t, true));
      AdvanceIsARun(c, s', t, n - 1);
      assert Advance(c, s', t, n - 1).threads == Advance(c, s, t, n).threads;
      RunFirst(c, s, Go(t, true), Gos(t, n - 1));
    }
  }

  lemma {:induction false} RunJoins(c: Conf, s: Sys, ls: seq<Label>, more: seq<Label>)
    ensures RunAll(c, s, ls + more) == RunAll(c, RunAll(c, s, ls), more)
    decreases |ls|
  {
    hide Next;
    if ls == [] {
      assert ls + more == more;
    } else {
      assert ls + more == [ls[0]] + (ls[1..] + more) && ls == [ls[0]] + ls[1..];
      RunFirst(c, s, ls[0], ls[1..] + more);
      RunFirst(c, s, ls[0], ls[1..]);
      RunJoins(c, Next(c, s, ls[0]), ls[1..], more);
    }
  }

  ghost predicate At(s: Sys, t: Tid, depth: nat, pc: Pc) {
    t in s.threads && s.threads[t] == Thread(depth, pc)
  }

  lemma OneStep(c: Conf, o: Out, t: Tid, n: nat, o': Out)
    requires Step(c, o.sh, t, o.th, true) == o'
    ensures Steps(c, o, t, n + 1) == Steps(c, o', t, n)
  {
  }

  lemma NoSteps(c: Conf, o: Out, t: Tid)
    ensures Steps(c, o, t, 0) == o
  {
  }

  lemma LockedStep(c: Conf, sh: Shared, t: Tid, k: nat, pc: Pc, n: nat, o': Out)
    requires Part(pc).Locked? && UnderLock(c, sh, t, Thread(k, pc), true) == o'
    ensures Steps(c, Out(sh, Thread(k, pc)), t, n + 1) == Steps(c, o', t, n)
  {
    hide UnderLock, Part;
  }

  lemma {:induction false} StepsUnderLock(c: Conf, sh: Shared, t: Tid, k: nat, bu: Burst)
    requires sh.safety == Safety(Transmitting, bu.gen0) && sh.lockOwner == None
    requires RfOk(c, sh.b, bu.permit) && NoCommandTime(sh.b, bu.permit)
    ensures Steps(c, Out(sh, Thread(k, EnterLock(bu))), t, 7)
            == Out(sh.(dev := Device(false, false)), Thread(k, Send(bu.(epoch := sh.opens))))
  {
    hide RfOk, NoCommandTime, Steps;
    var bu', sh1 := bu.(epoch := sh.opens), sh.(lockOwner := Some(t));
    var sh2 := sh1.(dev := Device(false, false));
    LockedStep(c, sh, t, k, EnterLock(bu), 6, Out(sh1, Thread(k, CheckStop(bu))));
    LockedStep(c, sh1, t, k, CheckStop(bu), 5, Out(sh1, Thread(k, CheckRf(bu))));
    LockedStep(c, sh1, t, k, CheckRf(bu), 4, Out(sh1, Thread(k, CheckStart(bu'))));
    StepsSettled(c, sh1, t, k, bu');
    hide UnderLock, Part;
  }

  lemma StepsSettled(c: Conf, sh: Shared, t: Tid, k: nat, bu: Burst)
    requires sh.safety == Safety(Transmitting, bu.gen0)
    ensures Steps(c, Out(sh, Thread(k, CheckStart(bu))), t, 4)
            == Out(sh.(dev := Device(false, false), lockOwner := None), Thread(k, Send(bu)))
  {
    hide Step, Steps;
    var sh' := sh.(dev := Device(false, false));
    NoSteps(c, Out(sh'.(lockOwner := None), Thread(k, Send(bu))), t);
    LockedStep(c, sh, t, k, CheckStart(bu), 3, Out(sh, Thread(k, WriteGain(bu))));
    LockedStep(c, sh, t, k, WriteGain(bu), 2, Out(sh', Thread(k, Readback(bu))));
    LockedStep(c, sh', t, k, Readback(bu), 1, Out(sh', Thread(k, CheckLast(bu))));
    LockedStep(c, sh', t, k, CheckLast(bu), 0, Out(sh'.(lockOwner := None), Thread(k, Send(bu))));
  }

  /** An undisturbed burst gets from reading the trip generation to its send. */
  lemma {:induction false} BurstReachesSend(c: Conf, sh: Shared, t: Tid, k: nat, p: Permit, seen: nat)
    requires sh.safety.state.Armed? && sh.lockOwner == None && RfOk(c, sh.b, p) && NoCommandTime(sh.b, p)
    ensures var o := Steps(c, Out(sh, Thread(k, ReadGen(p, seen))), t, 9);
            && o.th == Thread(k, Send(Burst(sh.bursts, p, sh.safety.tripGen, sh.opens, seen)))
            && o.sh.b == sh.b && o.sh.lockOwner == None && o.sh.safety == Safety(Transmitting, sh.safety.tripGen)
  {
    hide RfOk, NoCommandTime, Steps;
    var g, bu := sh.safety.tripGen, Burst(sh.bursts, p, sh.safety.tripGen, 0, seen);
    var sh' := sh.(safety := Safety(Transmitting, g), inFlight := Some(sh.bursts), bursts := sh.bursts + 1);
    OneStep(c, Out(sh, Thread(k, ReadGen(p, seen))), t, 8, Out(sh, Thread(k, Consume(p, g, seen))));
    OneStep(c, Out(sh, Thread(k, Consume(p, g, seen))), t, 7, Out(sh', Thread(k, EnterLock(bu))));
    hide Step;
    StepsUnderLock(c, sh', t, k, bu);
  }

  lemma EndingStep(c: Conf, sh: Shared, t: Tid, k: nat, pc: Pc, n: nat, o': Out)
    requires Part(pc).Ending? && SendStep(c, sh, t, Thread(k, pc), true) == o'
    ensures Steps(c, Out(sh, Thread(k, pc)), t, n + 1) == Steps(c, o', t, n)
  {
    hide SendStep, Part;
  }

  /** From its send an undisturbed burst returns normally. */
  lemma {:induction false} BurstReturns(c: Conf, sh: Shared, t: Tid, k: nat, bu: Burst)
    requires sh.safety == Safety(Transmitting, bu.gen0)
    ensures Steps(c, Out(sh, Thread(k, Send(bu))), t, 4).th == Thread(k, Returning(bu))
  {
    hide Step, Steps;
    EndingStep(c, sh, t, k, Send(bu), 3, Out(sh, Thread(k, Sending(bu))));
    EndingStep(c, sh, t, k, Sending(bu), 2, Out(sh, Thread(k, FinalCheck(bu))));
    BurstCompletes(c, sh, t, k, bu);
  }

  lemma BurstCompletes(c: Conf, sh: Shared, t: Tid, k: nat, bu: Burst)
    requires sh.safety == Safety(Transmitting, bu.gen0)
    ensures Steps(c, Out(sh, Thread(k, FinalCheck(bu))), t, 2).th == Thread(k, Returning(bu))
  {
    hide Step, Steps;
    var sh' := sh.(inFlight := None);
    NoSteps(c, Out(sh', Thread(k, Returning(bu))), t);
    EndingStep(c, sh, t, k, FinalCheck(bu), 1, Out(sh', Thread(k, Completing(bu))));
    EndingStep(c, sh', t, k, Completing(bu), 0, Out(sh', Thread(k, Returning(bu))));
  }

  // --- from an initial state -------------------------------------------------------------------

  /** The controller arms, and thread t transmits with a permit of that arming, up to its send. */
  function ArmAndTransmit(t: Tid, p: Permit): seq<Label> {
    [Env(Enter(Armed)), Begin(t, Transmit(p))] + Gos(t, 11)
  }

  /** The state in which it stands at its send: nothing else moved. */
  ghost predicate SentFrom(s: Sys, s': Sys, t: Tid, p: Permit) {
    && t in s.threads && s.threads[t] == Thread(0, Idle)
    && s'.threads == s.threads[t := Thread(0, Send(Burst(s.sh.bursts, p, s.sh.safety.tripGen, s.sh.opens, s.sh.drops)))]
    && s'.sh.lockOwner == None && s'.sh.b == s.sh.b.(txStreamer := true)
    && s'.sh.safety == Safety(Transmitting, s.sh.safety.tripGen)
  }

  lemma {:induction false} ArmedBurstReachesSend(c: Conf, s: Sys, t: Tid, p: Permit)
    requires t in s.threads && s.threads[t] == Thread(0, Idle) && PrecheckOk(c, s.sh.b, p)
    requires s.sh.safety.state.Safe? && s.sh.txOwner == None && s.sh.lockOwner == None && s.sh.inFlight == None
    ensures SentFrom(s, RunAll(c, s, ArmAndTransmit(t, p)), t, p)
  {
    var armed := Next(c, s, Env(Enter(Armed)));
    assert armed == Sys(s.threads, s.sh.(safety := Safety(Armed, s.sh.safety.tripGen)));
    var begun := Next(c, armed, Begin(t, Transmit(p)));
    assert begun == Sys(s.threads[t := Thread(0, BurstWaitTx(p))], armed.sh);
    PrecheckPasses(c, armed.sh, t, p);
    hide *;
    RunTwo(c, s, Env(Enter(Armed)), Begin(t, Transmit(p)));
    RunJoins(c, s, [Env(Enter(Armed)), Begin(t, Transmit(p))], Gos(t, 11));
    AdvanceIsARun(c, begun, t, 11);
    ElevenSteps(c, s, begun, t, p);
  }

  lemma RunTwo(c: Conf, s: Sys, a: Label, b: Label)
    ensures RunAll(c, s, [a, b]) == Next(c, Next(c, s, a), b)
  {
    hide Next;
    RunFirst(c, s, a, [b]);
    RunFirst(c, Next(c, s, a), b, []);
    assert [a] + [b] == [a, b] && [b] + [] == [b];
  }

  /** Waiting for the transmit lock and the first check. */
  lemma {:induction false} PrecheckPasses(c: Conf, sh: Shared, t: Tid, p: Permit)
    requires sh.txOwner == None && sh.lockOwner == None && PrecheckOk(c, sh.b, p)
    ensures var sh' := sh.(txOwner := Some(t), b := sh.b.(txStreamer := true));
            && Steps(c, Out(sh, Thread(0, BurstWaitTx(p))), t, 11) == Steps(c, Out(sh', Thread(0, ReadGen(p, sh.drops))), t, 9)
            && RfOk(c, sh'.b, p) && NoCommandTime(sh'.b, p)
  {
    var sh1 := sh.(txOwner := Some(t));
    var sh' := sh.(txOwner := Some(t), b := sh.b.(txStreamer := true));
    assert sh1.(b := sh1.b.(txStreamer := true)) == sh';
    assert RfOk(c, sh'.b, p) && NoCommandTime(sh'.b, p);
    hide PrecheckOk, RfOk, NoCommandTime, Steps;
    OneStep(c, Out(sh, Thread(0, BurstWaitTx(p))), t, 10, Out(sh1, Thread(0, Precheck(p))));
    OneStep(c, Out(sh1, Thread(0, Precheck(p))), t, 9, Out(sh', Thread(0, ReadGen(p, sh.drops))));
  }

  lemma ElevenSteps(c: Conf, s: Sys, begun: Sys, t: Tid, p: Permit)
    requires t in s.threads && s.threads[t] == Thread(0, Idle) && s.sh.lockOwner == None
    requires begun == Sys(s.threads[t := Thread(0, BurstWaitTx(p))], s.sh.(safety := Safety(Armed, s.sh.safety.tripGen)))
    requires var sh' := begun.sh.(txOwner := Some(t), b := begun.sh.b.(txStreamer := true));
             && Steps(c, Out(begun.sh, Thread(0, BurstWaitTx(p))), t, 11) == Steps(c, Out(sh', Thread(0, ReadGen(p, s.sh.drops))), t, 9)
             && RfOk(c, sh'.b, p) && NoCommandTime(sh'.b, p)
    ensures SentFrom(s, Advance(c, begun, t, 11), t, p)
  {
    hide RfOk, NoCommandTime, Steps;
    var sh' := begun.sh.(txOwner := Some(t), b := begun.sh.b.(txStreamer := true));
    BurstReachesSend(c, sh', t, 0, p, s.sh.drops);
    assert Advance(c, begun, t, 11).threads
        == s.threads[t := Thread(0, Send(Burst(s.sh.bursts, p, s.sh.safety.tripGen, s.sh.opens, s.sh.drops)))];
  }

  /** From any initial state with the controller SAFE and the devices ready for the permit: the burst is armed
      and gets to its send, another thread closes and opens, and the burst goes out at the configured
      values. */
  lemma {:induction false} ReopenBeforeSend(c: Conf, s: Sys, t: Tid, u: Tid, p: Permit)
    requires Initial(s) && t in s.threads && u in s.threads && t != u
    requires s.sh.safety.state.Safe? && PrecheckOk(c, s.sh.b, p) && !c.physical && !DefaultsFit(c, p)
    ensures var s' := RunAll(c, s, ArmAndTransmit(t, p)
                                   + [Begin(u, Direct(OpClose)), Go(u, true), Begin(u, Direct(OpOpen(true, true))), Go(u, true), Go(t, true)]);
            && t in s'.threads && s'.threads[t].pc.Sending? && s'.threads[t].pc.burst.permit == p
            && !Fits(c, s'.sh.b, p)
  {
    assert s.threads[t] == Thread(0, Idle) && s.threads[u] == Thread(0, Idle);
    hide PrecheckOk, Fits, DefaultsFit, RunAll, ArmAndTransmit, Next;
    ArmedBurstReachesSend(c, s, t, p);
    var tail := [Begin(u, Direct(OpClose)), Go(u, true), Begin(u, Direct(OpOpen(true, true))), Go(u, true), Go(t, true)];
    RunJoins(c, s, ArmAndTransmit(t, p), tail);
    ReopenAtSend(c, RunAll(c, s, ArmAndTransmit(t, p)), t, u);
  }

  /** `invalidate_time` looks at the controller before it takes `_lock`, and takes no transmit lock. From any
      initial state: one that looks while the controller is SAFE, just before TX is armed, lands between the
      last check and the send of a burst of that arming. The burst goes out and returns normally although
      the time alignment and the tune are gone. */
  lemma {:induction false} InvalidationBeforeSend(c: Conf, s: Sys, t: Tid, u: Tid, p: Permit)
    requires Initial(s) && t in s.threads && u in s.threads && t != u
    requires s.sh.safety.state.Safe? && PrecheckOk(c, s.sh.b, p)
    ensures var late := RunAll(c, s, [Begin(u, Invalidate), Go(u, true)] + ArmAndTransmit(t, p) + [Go(u, true)]);
            var bu := Burst(s.sh.bursts, p, s.sh.safety.tripGen, s.sh.opens, s.sh.drops);
            && At(late, t, 0, Send(bu)) && late.sh.b.timeSet == {} && !late.sh.b.tuned && Tx !in late.sh.b.tunedDirs
            && At(RunAll(c, late, Gos(t, 4)), t, 0, Returning(bu))
  {
    assert s.threads[t] == Thread(0, Idle) && s.threads[u] == Thread(0, Idle);
    hide PrecheckOk;
    var begun := Next(c, s, Begin(u, Invalidate));
    assert begun == Sys(s.threads[u := Thread(0, TripFirst)], s.sh);
    var looked := Next(c, begun, Go(u, true));
    assert looked == Sys(s.threads[u := Thread(0, WaitPlain(OpInvalidateTime))], s.sh);
    hide RunAll, ArmAndTransmit, Next;
    RunTwo(c, s, Begin(u, Invalidate), Go(u, true));
    ArmedBurstReachesSend(c, looked, t, p);
    var sent := RunAll(c, looked, ArmAndTransmit(t, p));
    var bu := Burst(s.sh.bursts, p, s.sh.safety.tripGen, s.sh.opens, s.sh.drops);
    InvalidationLands(c, sent, t, u, 0, 0, bu);
    RunThreeParts(c, s, [Begin(u, Invalidate), Go(u, true)], ArmAndTransmit(t, p), Go(u, true));
    AdvanceIsARun(c, Next(c, sent, Go(u, true)), t, 4);
  }

  lemma RunThreeParts(c: Conf, s: Sys, first: seq<Label>, second: seq<Label>, last: Label)
    ensures RunAll(c, s, first + second + [last]) == Next(c, RunAll(c, RunAll(c, s, first), second), last)
  {
    hide Next;
    RunJoins(c, s, first + second, [last]);
    RunJoins(c, s, first, second);
    var s2 := RunAll(c, RunAll(c, s, first), second);
    assert [last][1..] == [];
    assert RunAll(c, s2, [last]) == Next(c, s2, last);
  }

  lemma InvalidationLands(c: Conf, s: Sys, t: Tid, u: Tid, k: nat, j: nat, bu: Burst)
    requires t != u && At(s, t, k, Send(bu)) && At(s, u, j, WaitPlain(OpInvalidateTime))
    requires s.sh.lockOwner == None && s.sh.safety == Safety(Transmitting, bu.gen0)
    ensures var late := Next(c, s, Go(u, true));
            && At(late, t, k, Send(bu)) && late.sh.b.timeSet == {} && !late.sh.b.tuned && Tx !in late.sh.b.tunedDirs
            && At(Advance(c, late, t, 4), t, k, Returning(bu))
  {
    hide Steps;
    var late := Next(c, s, Go(u, true));
    assert late.sh.b == Forget(s.sh.b) && late.sh.safety == s.sh.safety;
    BurstReturns(c, late.sh, t, k, bu);
  }
}
