/** `ActiveBackend` and `CoherenceTracker` as objects updated in place. What the concrete backend's
    hook returned, or that it raised, is a parameter of each method. A false result is a raise. */
module BackendObjects {
  import opened Results
  import opened LoPlans
  import opened Backends
  import opened Coherence

  const MaxReasons: nat := 256

  /** The last `MaxReasons` entries. */
  function Bounded(reasons: seq<(nat, string)>): (r: seq<(nat, string)>)
    ensures |r| <= MaxReasons && |r| <= |reasons| && r == reasons[|reasons| - |r|..]
    ensures |reasons| > 0 ==> |r| > 0 && r[|r| - 1] == reasons[|reasons| - 1]
  {
    if |reasons| > MaxReasons then reasons[|reasons| - MaxReasons..] else reasons
  }

  class CoherenceTracker {
    var generation: nat
    var reasons: seq<(nat, string)>

    /** Entries are consecutive generations up to the present one. */
    ghost predicate Valid()
      reads this
    {
      && |reasons| <= MaxReasons
      && |reasons| <= generation
      && forall i :: 0 <= i < |reasons| ==> reasons[i].0 == generation - |reasons| + 1 + i
    }

    constructor ()
      ensures Valid() && generation == 0 && reasons == []
    {
      generation, reasons := 0, [];
    }

    method Bump(reason: string) returns (gen: nat)
      requires Valid()
      modifies this
      ensures Valid() && gen == generation == old(generation) + 1
      ensures reasons == Bounded(old(reasons) + [(gen, reason)]) && |reasons| > 0 && reasons[|reasons| - 1] == (gen, reason)
    {
      generation := generation + 1;
      reasons := Bounded(reasons + [(generation, reason)]);
      gen := generation;
    }
  }

  /** What `tune` adds to the hook's report: late commands ran untimed, the phase class, floors crossed. */
  method CompleteReport(cfg: Cfg, b: Backend, dir: Direction, fOld: real, late: bool, h: TuneHook) returns (r: TuneReport)
    ensures r == Report(cfg, b, dir, fOld, late, h)
  {
    hide PhaseAfterTune, FloorCrossed;
    var timed := h.timed;
    if late && timed {
      timed := false;
    }
    var cls := PhaseAfterTuneAt(cfg, dir, h.center, timed, b.lo.src, b.lo.exp);
    var band := h.bandChange;
    if FloorCrossed(cfg, fOld, h.center, dir) {
      band := true;
    }
    r := TuneReport(h.center, timed, cls, band, dir in b.rf.last && b.rf.last[dir].cls != cls);
  }

  /** An operation as the function that specifies it, which keeps the phase invariant. */
  lemma {:induction false} Applied(cfg: Cfg, b: Backend, op: Op)
    requires Inv(cfg, b)
    ensures Inv(cfg, Apply(cfg, b, op))
    ensures match op
            case OpOpen(hookOk, paOk) => Apply(cfg, b, op) == Open(b, hookOk, paOk)
            case OpTimeLoad(devs, hookOk) => Apply(cfg, b, op) == LoadTimes(cfg, b, devs, hookOk)
            case OpSetRate(dir, hz, actual) => Apply(cfg, b, op) == SetRate(cfg, b, dir, hz, actual)
            case OpTune(dir, f, lo, fOld, late, hook, bump) => Apply(cfg, b, op) == Tune(cfg, b, dir, f, lo, fOld, late, hook, bump)
            case OpLoSource(dir, ref, src, hook) => Apply(cfg, b, op) == SetLoSource(b, dir, ref, src, hook)
            case OpLoExport(dir, ref, on, hook) => Apply(cfg, b, op) == SetLoExport(b, dir, ref, on, hook)
            case OpIntDelay(dir, ref, n, hook, bump) => Apply(cfg, b, op) == SetIntDelay(b, dir, ref, n, hook, bump)
            case _ => true
  {
    hide Inv, Open, LoadTimes, SetRate, Tune, SetLoSource, SetLoExport, SetIntDelay, Close, SetClock, SetTimeSrc, DropTime, Forget, StartRx, SetCommandTimes, ClearCommandTimes;
    ApplyKeepsInv(cfg, b, op);
  }

  /** What a rate change amounts to, in plain terms. */
  lemma RateIs(cfg: Cfg, b: Backend, dir: Direction, hz: real, actual: Option<real>)
    ensures SetRate(cfg, b, dir, hz, actual)
            == if b.open && hz > 0.0 && actual.Some?
               then var moved := RateMoved(Rate(cfg, b, dir), actual.value);
                    b.(rf := b.rf.(rate := b.rf.rate[dir := actual.value]), streaming := b.streaming && !(moved && dir.Rx?),
                       generation := b.generation + if moved && b.tuned then 1 else 0)
               else b
    ensures actual.Some? ==> (RateMoved(Rate(cfg, b, dir), actual.value) <==> !CloseRates(Rate(cfg, b, dir), actual.value))
    ensures b.open && hz > 0.0 && actual.Some? ==>
              var b' := SetRate(cfg, b, dir, hz, actual);
              Rate(cfg, b', dir) == actual.value && forall d :: d != dir ==> Rate(cfg, b', d) == Rate(cfg, b, d)
  {
    if actual.Some? {
      RateMovedExactly(Rate(cfg, b, dir), actual.value);
    }
    hide RateMoved, CloseRates;
  }

  lemma LoadIs(cfg: Cfg, b: Backend, devs: Option<seq<string>>, hookOk: bool)
    ensures LoadsTime(cfg, b, OpTimeLoad(devs, hookOk)) <==> AtLeast(cfg, b, RefsSet) && devs.Some? && hookOk
    ensures LoadTimes(cfg, b, devs, hookOk)
            == if AtLeast(cfg, b, RefsSet) && devs.Some? && hookOk
               then b.(timeSet := b.timeSet + (set d | d in devs.value), generation := b.generation + if b.syncDepth <= 0 then 1 else 0)
               else b
  {
    hide AtLeast;
  }

  /** What a reference change amounts to, past its argument checks. */
  lemma {:induction false} ReferenceChangeIs(cfg: Cfg, b: Backend, op: Op)
    requires Inv(cfg, b) && (op.OpClockSource? || op.OpTimeSource? || op.OpMasterClock?)
    ensures Inv(cfg, Apply(cfg, b, op)) && (AtLeast(cfg, b, TimeSet) ==> b.open)
    ensures AtLeast(cfg, b, TimeSet) && ReferenceChange(cfg, op)
            ==> PhaseOf(cfg, Apply(cfg, b, op)) == RefsSet && Apply(cfg, b, op).generation == b.generation + 1
  {
    ApplyKeepsInv(cfg, b, op);
    assert AtLeast(cfg, b, TimeSet) ==> b.open by { hide RefsOk, TimeOk; }
    hide Apply, Inv, PhaseOf, AtLeast;
    if AtLeast(cfg, b, TimeSet) && ReferenceChange(cfg, op) {
      ReferenceChangeDropsTime(cfg, b, op);
    }
  }

  class ActiveBackend {
    const cfg: Cfg
    const coherence: CoherenceTracker
    var open: bool
    var everOpened: bool
    var clockSet: set<string>
    var timeSrcSet: set<string>
    var timeSet: set<string>
    var tuned: bool
    var tunedDirs: set<Direction>
    var streaming: bool
    var txStreamer: bool
    var syncDepth: int
    var rf: Rf
    var lo: Lo
    var cmdTimeSet: map<string, real>

    function View(): Backend
      reads this, coherence
    {
      Backend(open, everOpened, clockSet, timeSrcSet, timeSet, tuned, tunedDirs, streaming, txStreamer, syncDepth,
              rf, lo, cmdTimeSet, coherence.generation)
    }

    ghost predicate Valid()
      reads this, coherence
    {
      Inv(cfg, View()) && coherence.Valid()
    }

    constructor (cfg: Cfg)
      ensures Valid() && this.cfg == cfg && View() == Fresh && fresh(coherence)
    {
      this.cfg := cfg;
      coherence := new CoherenceTracker();
      open, everOpened, tuned, streaming, txStreamer, syncDepth := false, false, false, false, false, 0;
      clockSet, timeSrcSet, timeSet, tunedDirs := {}, {}, {}, {};
      rf, lo, cmdTimeSet := NoRf, NoLo, map[];
    }

    method OpenDevices(hookOk: bool, paLinesOk: bool) returns (ok: bool)
      requires Valid()
      modifies this, coherence
      ensures Valid() && View() == Apply(cfg, old(View()), OpOpen(hookOk, paLinesOk))
      ensures ok <==> !old(open) && hookOk && paLinesOk
      ensures ok ==> rf == NoRf && lo == NoLo && timeSet == {} && tunedDirs == {} && !streaming
      ensures ok ==> coherence.generation == old(coherence.generation) + if old(everOpened) then 1 else 0
    {
      hide Apply, Inv, Bounded, CoherenceTracker.Valid;
      Applied(cfg, View(), OpOpen(hookOk, paLinesOk));
      Applied(cfg, View(), OpOpen(true, true));
      if open || !hookOk {
        return false;
      }
      var reopen := everOpened;
      everOpened, open := true, true;
      clockSet, timeSrcSet, timeSet := {}, {}, {};
      ResetRfState();
      if reopen {
        var _ := coherence.Bump("reopen");
      }
      assert View() == Open(old(View()), true, true);
      if !paLinesOk {
        CloseDevices();
      }
      ok := paLinesOk;
    }

    method ResetRfState()
      modifies this`tuned, this`tunedDirs, this`streaming, this`txStreamer, this`rf, this`lo, this`cmdTimeSet
      ensures !tuned && tunedDirs == {} && !streaming && !txStreamer
      ensures rf == NoRf && lo == NoLo && cmdTimeSet == map[]
    {
      tuned, tunedDirs, streaming, txStreamer := false, {}, false, false;
      rf, lo, cmdTimeSet := NoRf, NoLo, map[];
    }

    method CloseDevices()
      requires Valid()
      modifies this`streaming, this`open, this`txStreamer
      ensures Valid() && !open && View() == Close(old(View()))
    {
      if open {
        if streaming {
          streaming := false;
        }
        open, txStreamer := false, false;
      }
    }

    /** `_invalidate_time`: the guard looks at the whole phase. */
    method InvalidateTime(reason: string)
      requires coherence.Valid()
      modifies this`streaming, this`timeSet, this`tuned, this`tunedDirs, coherence
      ensures coherence.Valid() && View() == DropTime(cfg, old(View()))
    {
      if AtLeast(cfg, View(), TimeSet) {
        ForgetTime(reason);
      }
    }

    /** The body shared by `_invalidate_time` and `invalidate_time`. */
    method ForgetTime(reason: string)
      requires coherence.Valid()
      modifies this`streaming, this`timeSet, this`tuned, this`tunedDirs, coherence
      ensures coherence.Valid() && View() == Forget(old(View()))
    {
      hide Bounded, CoherenceTracker.Valid;
      if streaming {
        streaming := false;
      }
      timeSet, tuned, tunedDirs := {}, false, {};
      var _ := coherence.Bump(reason);
    }

    method SetClockSource(target: Target, hookOk: bool) returns (ok: bool)
      requires Valid()
      modifies this, coherence
      ensures Valid() && View() == Apply(cfg, old(View()), OpClockSource(target, hookOk))
      ensures ok <==> old(open) && KnownTarget(cfg, target) && hookOk
      ensures AtLeast(cfg, old(View()), TimeSet) && KnownTarget(cfg, target)
              ==> PhaseOf(cfg, View()) == RefsSet && coherence.generation == old(coherence.generation) + 1
    {
      hide AtLeast, PhaseOf, Inv, KnownTarget, Targets, Bounded, CoherenceTracker.Valid;
      ReferenceChangeIs(cfg, View(), OpClockSource(target, hookOk));
      if !open || !KnownTarget(cfg, target) {
        return false;
      }
      InvalidateTime("clock_source");
      if !hookOk {
        return false;
      }
      clockSet := clockSet + Targets(cfg, target);
      ok := true;
    }

    method SetTimeSource(target: Target, hookOk: bool) returns (ok: bool)
      requires Valid()
      modifies this, coherence
      ensures Valid() && View() == Apply(cfg, old(View()), OpTimeSource(target, hookOk))
      ensures ok <==> old(open) && KnownTarget(cfg, target) && hookOk
      ensures AtLeast(cfg, old(View()), TimeSet) && KnownTarget(cfg, target)
              ==> PhaseOf(cfg, View()) == RefsSet && coherence.generation == old(coherence.generation) + 1
    {
      hide AtLeast, PhaseOf, Inv, KnownTarget, Targets, Bounded, CoherenceTracker.Valid;
      ReferenceChangeIs(cfg, View(), OpTimeSource(target, hookOk));
      if !open || !KnownTarget(cfg, target) {
        return false;
      }
      InvalidateTime("time_source");
      if !hookOk {
        return false;
      }
      timeSrcSet := timeSrcSet + Targets(cfg, target);
      ok := true;
    }

    method SetMasterClockRate(target: Target, hz: real, hookOk: bool) returns (ok: bool)
      requires Valid()
      modifies this, coherence
      ensures Valid() && View() == Apply(cfg, old(View()), OpMasterClock(target, hz, hookOk))
      ensures ok <==> old(open) && KnownTarget(cfg, target) && hz > 0.0 && hookOk
      ensures AtLeast(cfg, old(View()), TimeSet) && KnownTarget(cfg, target) && hz > 0.0
              ==> PhaseOf(cfg, View()) == RefsSet && coherence.generation == old(coherence.generation) + 1
    {
      hide AtLeast, PhaseOf, Inv, KnownTarget, Targets, Bounded, CoherenceTracker.Valid;
      ReferenceChangeIs(cfg, View(), OpMasterClock(target, hz, hookOk));
      if !open || !KnownTarget(cfg, target) || hz <= 0.0 {
        return false;
      }
      InvalidateTime("master_clock_rate");
      ok := hookOk;
    }

    /** The three time loads; `devs` is `None` for an unknown device or group. */
    method LoadTime(devs: Option<seq<string>>, hookOk: bool, reason: string) returns (ok: bool)
      requires Valid()
      modifies this`timeSet, coherence
      ensures Valid() && View() == Apply(cfg, old(View()), OpTimeLoad(devs, hookOk))
      ensures ok <==> LoadsTime(cfg, old(View()), OpTimeLoad(devs, hookOk))
      ensures ok ==> coherence.generation == old(coherence.generation) + if syncDepth <= 0 then 1 else 0
    {
      hide Apply, Inv, AtLeast, LoadTimes, LoadsTime, Bounded, CoherenceTracker.Valid;
      Applied(cfg, View(), OpTimeLoad(devs, hookOk));
      LoadIs(cfg, View(), devs, hookOk);
      if !AtLeast(cfg, View(), RefsSet) || devs.None? || !hookOk {
        return false;
      }
      timeSet := timeSet + set d | d in devs.value;
      if syncDepth <= 0 {
        var _ := coherence.Bump(reason);
      }
      ok := true;
    }

    method SetSampleRate(dir: Direction, hz: real, actual: Option<real>) returns (ok: bool)
      requires Valid()
      modifies this`rf, this`streaming, coherence
      ensures Valid() && View() == Apply(cfg, old(View()), OpSetRate(dir, hz, actual))
      ensures ok <==> old(open) && hz > 0.0 && actual.Some?
      ensures ok ==> Rate(cfg, View(), dir) == actual.value && forall d :: d != dir ==> Rate(cfg, View(), d) == old(Rate(cfg, View(), d))
      ensures var moved := ok && !CloseRates(old(Rate(cfg, View(), dir)), actual.value);
              && coherence.generation == old(coherence.generation) + (if moved && old(tuned) then 1 else 0)
              && streaming == (old(streaming) && !(moved && dir.Rx?))
    {
      hide Apply, Inv, Bounded, CoherenceTracker.Valid, RateMoved, CloseRates, SetRate, Rate;
      Applied(cfg, View(), OpSetRate(dir, hz, actual));
      RateIs(cfg, View(), dir, hz, actual);
      if !open || hz <= 0.0 || actual.None? {
        return false;
      }
      var was := Rate(cfg, View(), dir);
      rf := rf.(rate := rf.rate[dir := actual.value]);
      if RateMoved(was, actual.value) {
        if dir.Rx? && streaming {
          streaming := false;
        }
        if tuned {
          var _ := coherence.Bump("rate");
        }
      }
      ok := true;
    }

    method TuneTo(dir: Direction, f: real, loOffset: real, late: bool, result: Option<TuneHook>, bump: bool)
      returns (rep: Option<TuneReport>)
      requires Valid()
      modifies this`rf, this`tuned, this`tunedDirs, coherence
      ensures Valid()
      ensures View() == Apply(cfg, old(View()), OpTune(dir, f, loOffset, TunedFreq(cfg, old(View()), dir), late, result, bump))
      ensures rep.Some? <==> TuneAllowed(cfg, old(View()), f, result)
      ensures rep.Some? ==> rep.value == Report(cfg, old(View()), dir, TunedFreq(cfg, old(View()), dir), late, result.value)
      ensures rep.Some? && bump ==> (coherence.generation == old(coherence.generation) <==> !NeedsBump(rep.value))
    {
      hide Apply, Inv, Bounded, CoherenceTracker.Valid, AtLeast, Report, NeedsBump;
      Applied(cfg, View(), OpTune(dir, f, loOffset, TunedFreq(cfg, View(), dir), late, result, bump));
      if !AtLeast(cfg, View(), RefsSet) || f <= 0.0 || result.None? {
        return None;
      }
      var r := CompleteReport(cfg, View(), dir, TunedFreq(cfg, View(), dir), late, result.value);
      if bump && NeedsBump(r) {
        var _ := coherence.Bump(if r.bandChange then "band_change" else "tune");
      }
      RecordTune(dir, loOffset, r);
      rep := Some(r);
    }

    method RecordTune(dir: Direction, loOffset: real, r: TuneReport)
      modifies this`rf, this`tuned, this`tunedDirs
      ensures tuned && tunedDirs == old(tunedDirs) + {dir}
      ensures rf == Rf(old(rf.rate), old(rf.center)[dir := r.center], old(rf.loOffset)[dir := loOffset],
                       old(rf.last)[dir := LastTune(r.center, loOffset, r.timed, r.cls)])
    {
      rf := rf.(center := rf.center[dir := r.center], loOffset := rf.loOffset[dir := loOffset]);
      rf := rf.(last := rf.last[dir := LastTune(r.center, loOffset, r.timed, r.cls)]);
      tuned, tunedDirs := true, tunedDirs + {dir};
    }

    method SetLoSourceOf(dir: Direction, ref: ChannelRef, src: LoSource, hook: Hook) returns (ok: bool)
      requires Valid()
      modifies this`lo, coherence
      ensures Valid() && View() == Apply(cfg, old(View()), OpLoSource(dir, ref, src, hook))
      ensures ok <==> old(open) && hook == Done
    {
      hide Apply, Inv, Bounded, CoherenceTracker.Valid;
      Applied(cfg, View(), OpLoSource(dir, ref, src, hook));
      if !open || hook.Refused? {
        return false;
      }
      var key := (ref.device, dir);
      var was := LoSourceOf(lo.src, key);
      if hook.Broke? {
        lo := lo.(src := lo.src[key := FromUnknown]);
        if syncDepth <= 0 {
          var _ := coherence.Bump("lo_source");
        }
        return false;
      }
      lo := lo.(src := lo.src[key := src]);
      if was != src && syncDepth <= 0 {
        var _ := coherence.Bump("lo_source");
      }
      ok := true;
    }

    method SetLoExportOf(dir: Direction, ref: ChannelRef, on: bool, hook: Hook) returns (ok: bool)
      requires Valid()
      modifies this`lo, coherence
      ensures Valid() && View() == Apply(cfg, old(View()), OpLoExport(dir, ref, on, hook))
      ensures ok <==> old(open) && hook == Done
    {
      hide Apply, Inv, Bounded, CoherenceTracker.Valid;
      Applied(cfg, View(), OpLoExport(dir, ref, on, hook));
      if !open || hook.Refused? {
        return false;
      }
      var key := (ref.device, dir);
      var was := ExportOn(lo.exp, key);
      if hook.Broke? {
        lo := lo.(exp := lo.exp[key := false]);
        if syncDepth <= 0 {
          var _ := coherence.Bump("lo_export");
        }
        return false;
      }
      lo := lo.(exp := lo.exp[key := on]);
      if was != on && syncDepth <= 0 {
        var _ := coherence.Bump("lo_export");
      }
      ok := true;
    }

    /** False also when the device has no integer delay: the host shifts instead. */
    method SetIntegerDelay(dir: Direction, ref: ChannelRef, n: int, accepted: Option<bool>, bump: bool) returns (ok: bool)
      requires Valid()
      modifies this`lo, coherence
      ensures Valid() && View() == Apply(cfg, old(View()), OpIntDelay(dir, ref, n, accepted, bump))
      ensures ok <==> old(open) && accepted == Some(true)
    {
      hide Apply, Inv, Bounded, CoherenceTracker.Valid;
      Applied(cfg, View(), OpIntDelay(dir, ref, n, accepted, bump));
      if !open || accepted.None? {
        return false;
      }
      var key := (dir, ref);
      var was := DelayOf(lo, key);
      ok := accepted.value;
      if ok {
        lo := lo.(delay := lo.delay[key := n]);
        if bump && was != n && syncDepth <= 0 {
          var _ := coherence.Bump("integer_delay");
        }
      }
    }

    method RxStart(hookOk: bool) returns (ok: bool)
      requires Valid()
      modifies this`streaming
      ensures Valid() && View() == Apply(cfg, old(View()), OpRxStart(hookOk))
      ensures ok <==> StreamAllowed(cfg, old(View())) && !old(streaming) && hookOk
      ensures ok ==> streaming && RefsOk(cfg, View()) && (TimeRequired(cfg) ==> TimeOk(cfg, View()))
    {
      ApplyKeepsInv(cfg, View(), OpRxStart(hookOk));
      if !StreamAllowed(cfg, View()) || streaming || !hookOk {
        return false;
      }
      streaming := true;
      ok := true;
    }

    method RxStop()
      requires Valid()
      modifies this`streaming
      ensures Valid() && View() == Apply(cfg, old(View()), OpRxStop)
    {
      if streaming {
        streaming := false;
      }
    }
  }
}
