/** The watchdog of supervised chains (util/heimdall_watchdog.py) over sequences of runs: consecutive
    failing checks, restarts and the stall check. Registry contents, replies and clocks are inputs. */
module Watchdogs {
  import opened Results

  /** A STATUS reply, or none. `iniThreshold` is the stall threshold from the instance's INI file. */
  datatype Reply =
    | Unreachable
    | Status(failing: bool, frames: Option<int>, staleAfter: Option<real>, iniThreshold: Option<real>)

  /** A registry entry as one run finds it. `watched`: supervised, with a status port and a valid unit. */
  datatype Entry = Entry(key: string, live: bool, watched: bool, started: real, reply: Reply, restartOk: bool)

  datatype Args = Args(fails: nat, grace: Option<real>, stall: Option<real>)

  /** The stored counters of one chain. */
  datatype Counters = Counters(fails: nat, frames: Option<int>, since: Option<real>)

  const Zero: Counters := Counters(0, None, None)

  /** What one run makes of one chain. */
  datatype Verdict = Absent | Unchecked | Healthy | Failing

  const GraceFloor := 120.0
  const DefaultStaleAfter := 132.0

  function AutoGrace(reply: Reply): real {
    var g := 3.0 * if reply.Status? && reply.staleAfter.Some? then reply.staleAfter.value else DefaultStaleAfter;
    if g > GraceFloor then g else GraceFloor
  }

  predicate InGrace(args: Args, now: real, e: Entry) {
    var age := now - e.started;
    if args.grace.Some? then age < args.grace.value else age < GraceFloor || age < AutoGrace(e.reply)
  }

  function Threshold(args: Args, reply: Reply): Option<real>
    requires reply.Status?
  {
    if args.stall.Some? then args.stall
    else if reply.staleAfter.Some? then Some(3.0 * reply.staleAfter.value + 30.0)
    else reply.iniThreshold
  }

  /** The frame count a check compares, if it gets as far as comparing. */
  function Compared(args: Args, now: real, e: Entry): Option<int> {
    if e.live && e.watched && !InGrace(args, now, e) && e.reply.Status? && !e.reply.failing && Threshold(args, e.reply).Some?
    then e.reply.frames else None
  }

  /** `stall_check`: the counters afterwards and whether it reports a stall. */
  function StallCheck(args: Args, now: real, reply: Reply, st: Counters): (Counters, bool)
    requires reply.Status?
  {
    var threshold := Threshold(args, reply);
    if reply.frames.None? || threshold.None? then (st, false)
    else if st.frames != reply.frames || st.since.None? then (st.(frames := reply.frames, since := Some(now)), false)
    else (st, now - st.since.value >= threshold.value)
  }

  datatype Outcome = Outcome(st: Counters, verdict: Verdict, restart: bool)

  /** What a run does to a live entry with counters st (non-dry run). */
  function Check(args: Args, now: real, e: Entry, st: Counters): Outcome {
    if !e.watched || InGrace(args, now, e) then Outcome(st, Unchecked, false)
    else
      var r := if e.reply.Unreachable? || e.reply.failing then (st, true) else StallCheck(args, now, e.reply, st);
      if !r.1 then Outcome(r.0.(fails := 0), Healthy, false)
      else if st.fails + 1 >= args.fails then Outcome(r.0.(fails := 0), Failing, true)
      else Outcome(r.0.(fails := st.fails + 1), Failing, false)
  }

  /** How long a chain is left alone after its start: as told, or three times the reported stale time (132 s unless
      reported) and at least 120 s. */
  lemma {:induction false} GraceIs(args: Args, now: real, e: Entry)
    ensures args.grace.Some? ==> (InGrace(args, now, e) <==> now < e.started + args.grace.value)
    ensures args.grace.None? && e.reply.Status? && e.reply.staleAfter.Some? ==>
              (InGrace(args, now, e) <==> now < e.started + 120.0 || now < e.started + 3.0 * e.reply.staleAfter.value)
    ensures args.grace.None? && (e.reply.Unreachable? || e.reply.staleAfter.None?) ==> (InGrace(args, now, e) <==> now < e.started + 396.0)
  {
  }

  /** A frame count that has stood still for the threshold: as told, else from the reported stale time, else from the
      instance's file. */
  predicate StandsStill(args: Args, now: real, reply: Reply, st: Counters)
    requires reply.Status?
  {
    && reply.frames.Some? && st.frames == reply.frames && st.since.Some?
    && (args.stall.Some? ==> now >= st.since.value + args.stall.value)
    && (args.stall.None? && reply.staleAfter.Some? ==> now >= st.since.value + 3.0 * reply.staleAfter.value + 30.0)
    && (args.stall.None? && reply.staleAfter.None? ==> reply.iniThreshold.Some? && now >= st.since.value + reply.iniThreshold.value)
  }

  /** A watched chain past its grace fails its check exactly when it does not answer, answers that it fails, or stands
      still; every failure counts, and the last one before the limit restarts the unit and clears the count. */
  lemma {:induction false} FailsExactly(args: Args, now: real, e: Entry, st: Counters)
    ensures var o := Check(args, now, e, st);
            && (o.verdict == Failing <==> e.watched && !InGrace(args, now, e)
                                          && (e.reply.Unreachable? || e.reply.failing || StandsStill(args, now, e.reply, st)))
            && (o.verdict == Unchecked <==> !e.watched || InGrace(args, now, e))
            && (o.verdict == Unchecked ==> o.st == st && !o.restart)
            && (o.verdict == Healthy ==> o.st.fails == 0 && !o.restart)
            && (o.verdict == Failing ==> (o.restart <==> st.fails + 1 >= args.fails) && o.st.fails == if o.restart then 0 else st.fails + 1)
  {
    hide InGrace;
  }

  // --- one run over the registry -----------------------------------------------------------------

  datatype Run = Run(now: real, entries: seq<Entry>)

  type Store = map<string, Counters>

  function Stored(prior: Store, key: string): Counters {
    if key in prior then prior[key] else Zero
  }

  /** The counters after the first entries of a run: rebuilt from nothing, so chains that are gone drop out. */
  function After(args: Args, now: real, prior: Store, es: seq<Entry>): Store
    decreases |es|
  {
    if es == [] then map[]
    else
      var e, next := es[|es| - 1], After(args, now, prior, es[..|es| - 1]);
      if e.live then next[e.key := Check(args, now, e, Stored(prior, e.key)).st] else next
  }

  predicate Restarts(args: Args, now: real, prior: Store, e: Entry) {
    e.live && Check(args, now, e, Stored(prior, e.key)).restart
  }

  class Watchdog {
    const args: Args
    var state: Store
    var ok: bool

    constructor (args: Args)
      ensures this.args == args && state == map[] && ok
    {
      this.args, this.state, this.ok := args, map[], true;
    }

    /** `check_entry` with `restart`: the new counters, and whether the unit was restarted. A restart that
        fails clears the counter all the same and is only reported. */
    method CheckEntry(now: real, e: Entry, was: Counters) returns (st: Counters, restarted: bool)
      modifies this`ok
      ensures st == Check(args, now, e, was).st && restarted == Check(args, now, e, was).restart
      ensures ok == (old(ok) && (restarted ==> e.restartOk))
    {
      st, restarted := was, false;
      if !e.watched {
        return;
      }
      var age := now - e.started;
      if args.grace.Some? && age < args.grace.value {
        return;
      }
      if args.grace.None? && age < GraceFloor {
        return;
      }
      if args.grace.None? && age < AutoGrace(e.reply) {
        return;
      }
      var failure := e.reply.Unreachable? || e.reply.failing;
      if !failure {
        st, failure := Stall(now, e.reply, st);
      }
      if !failure {
        st := st.(fails := 0);
        return;
      }
      st := st.(fails := st.fails + 1);
      if st.fails >= args.fails {
        restarted := true;
        if !e.restartOk {
          ok := false;
        }
        st := st.(fails := 0);
      }
    }

    method Stall(now: real, reply: Reply, was: Counters) returns (st: Counters, stalled: bool)
      requires reply.Status?
      ensures (st, stalled) == StallCheck(args, now, reply, was)
    {
      st, stalled := was, false;
      if reply.frames.None? {
        return;
      }
      var threshold := Threshold(args, reply);
      if threshold.None? {
        return;
      }
      if st.frames != reply.frames || st.since.None? {
        st := st.(frames := reply.frames, since := Some(now));
        return;
      }
      stalled := now - st.since.value >= threshold.value;
    }

    /** `_run_locked`, with the state saved. */
    method RunLocked(run: Run) returns (restarted: set<nat>)
      modifies this
      ensures state == After(args, run.now, old(state), run.entries)
      ensures forall i :: i in restarted <==> 0 <= i < |run.entries| && Restarts(args, run.now, old(state), run.entries[i])
      ensures ok == (old(ok) && forall i :: i in restarted ==> run.entries[i].restartOk)
    {
      hide Check, InGrace;
      restarted := {};
      var next: Store := map[];
      var i := 0;
      while i < |run.entries|
        invariant i <= |run.entries| && state == old(state) && next == After(args, run.now, old(state), run.entries[..i])
        invariant forall j :: j in restarted <==> 0 <= j < i && Restarts(args, run.now, old(state), run.entries[j])
        invariant ok == (old(ok) && forall j :: j in restarted ==> run.entries[j].restartOk)
      {
        var e := run.entries[i];
        assert run.entries[..i + 1][..i] == run.entries[..i];
        if e.live {
          var st, again := CheckEntry(run.now, e, Stored(state, e.key));
          next := next[e.key := st];
          if again {
            restarted := restarted + {i};
          }
        }
        i := i + 1;
      }
      assert run.entries[..|run.entries|] == run.entries;
      state := next;
    }
  }

  // --- many runs -----------------------------------------------------------------------------------

  function StoreAfter(args: Args, runs: seq<Run>): Store
    decreases |runs|
  {
    if runs == [] then map[]
    else
      var r := runs[|runs| - 1];
      After(args, r.now, StoreAfter(args, runs[..|runs| - 1]), r.entries)
  }

  /** The entry of a chain in a run. */
  function EntryOf(es: seq<Entry>, key: string): Option<Entry>
    decreases |es|
  {
    if es == [] then None
    else
      var e := es[|es| - 1];
      if e.live && e.key == key then Some(e) else EntryOf(es[..|es| - 1], key)
  }

  /** No chain is listed twice in a run. */
  ghost predicate KeysOnce(es: seq<Entry>) {
    forall i, j :: 0 <= i < j < |es| && es[i].live && es[j].live ==> es[i].key != es[j].key
  }

  lemma {:induction false} AfterIs(args: Args, now: real, prior: Store, es: seq<Entry>, key: string)
    ensures var e := EntryOf(es, key);
            && (key in After(args, now, prior, es) <==> e.Some?)
            && (e.Some? ==> e.value.live && e.value.key == key && After(args, now, prior, es)[key] == Check(args, now, e.value, Stored(prior, key)).st)
    decreases |es|
  {
    hide Check;
    if es != [] {
      AfterIs(args, now, prior, es[..|es| - 1], key);
    }
  }

  /** The verdict of the last run on a chain. */
  function VerdictOf(args: Args, runs: seq<Run>, key: string): Verdict
    requires runs != []
  {
    var r := runs[|runs| - 1];
    var e := EntryOf(r.entries, key);
    if e.None? then Absent else Check(args, r.now, e.value, Stored(StoreAfter(args, runs[..|runs| - 1]), key)).verdict
  }

  /** Whether the last run restarts a chain. */
  predicate RestartedBy(args: Args, runs: seq<Run>, key: string)
    requires runs != []
  {
    var r := runs[|runs| - 1];
    exists i :: 0 <= i < |r.entries| && r.entries[i].key == key && Restarts(args, r.now, StoreAfter(args, runs[..|runs| - 1]), r.entries[i])
  }

  lemma {:induction false} EntryIsThere(es: seq<Entry>, key: string, i: nat)
    requires KeysOnce(es) && i < |es| && es[i].live && es[i].key == key
    ensures EntryOf(es, key) == Some(es[i])
    decreases |es|
  {
    if i < |es| - 1 {
      EntryIsThere(es[..|es| - 1], key, i);
    }
  }

  lemma {:induction false} EntryComesFrom(es: seq<Entry>, key: string)
    requires EntryOf(es, key).Some?
    ensures exists i :: 0 <= i < |es| && es[i] == EntryOf(es, key).value && es[i].live && es[i].key == key
    decreases |es|
  {
    var e := es[|es| - 1];
    if e.live && e.key == key {
      assert es[|es| - 1] == e;
    } else {
      var init := es[..|es| - 1];
      EntryComesFrom(init, key);
      var i :| 0 <= i < |init| && init[i] == EntryOf(init, key).value && init[i].live && init[i].key == key;
      assert es[i] == init[i];
    }
  }

  lemma {:induction false} RestartedIs(args: Args, runs: seq<Run>, key: string)
    requires runs != [] && KeysOnce(runs[|runs| - 1].entries)
    ensures var r := runs[|runs| - 1];
            var e := EntryOf(r.entries, key);
            RestartedBy(args, runs, key) <==>
            e.Some? && Check(args, r.now, e.value, Stored(StoreAfter(args, runs[..|runs| - 1]), key)).restart
  {
    hide Check, StoreAfter;
    var r, prior := runs[|runs| - 1], StoreAfter(args, runs[..|runs| - 1]);
    if RestartedBy(args, runs, key) {
      var i :| 0 <= i < |r.entries| && r.entries[i].key == key && Restarts(args, r.now, prior, r.entries[i]);
      EntryIsThere(r.entries, key, i);
    }
    if EntryOf(r.entries, key).Some? && Check(args, r.now, EntryOf(r.entries, key).value, Stored(prior, key)).restart {
      EntryComesFrom(r.entries, key);
      var i :| 0 <= i < |r.entries| && r.entries[i] == EntryOf(r.entries, key).value && r.entries[i].live && r.entries[i].key == key;
      assert Restarts(args, r.now, prior, r.entries[i]);
    }
  }

  // --- consecutive failing checks ------------------------------------------------------------------

  /** Failing checks since the chain was last healthy or not there; checks skipped do not count. Nothing is
      said of restarts or of the limit. */
  function Streak(args: Args, runs: seq<Run>, key: string): nat
    decreases |runs|
  {
    if runs == [] then 0
    else
      match VerdictOf(args, runs, key)
      case Absent => 0
      case Healthy => 0
      case Unchecked => Streak(args, runs[..|runs| - 1], key)
      case Failing => Streak(args, runs[..|runs| - 1], key) + 1
  }

  ghost predicate RunsOk(runs: seq<Run>) {
    forall i :: 0 <= i < |runs| ==> KeysOnce(runs[i].entries)
  }

  lemma NextMod(s: nat, n: nat)
    requires n > 0
    ensures (s + 1) % n == if s % n + 1 == n then 0 else s % n + 1
  {
    var q, r := s / n, s % n;
    assert s == q * n + r;
    if r + 1 == n {
      assert s + 1 == (q + 1) * n;
      ModIs(s + 1, q + 1, 0, n);
    } else {
      ModIs(s + 1, q, r + 1, n);
    }
  }

  lemma ModIs(x: int, q: int, r: int, n: int)
    requires n > 0 && 0 <= r < n && x == q * n + r
    ensures x % n == r
  {
    var d := x / n - q;
    assert x == (x / n) * n + x % n;
    assert d * n == r - x % n;
    assert d >= 1 ==> d * n >= n;
    assert d <= -1 ==> d * n <= -n;
  }

  /** The stored counter is the streak modulo the limit, in every state of every sequence of runs. */
  lemma {:induction false} CounterIsStreak(args: Args, runs: seq<Run>, key: string)
    requires args.fails > 0
    ensures Stored(StoreAfter(args, runs), key).fails == Streak(args, runs, key) % args.fails
    decreases |runs|
  {
    hide Check;
    if runs != [] {
      var init, r := runs[..|runs| - 1], runs[|runs| - 1];
      CounterIsStreak(args, init, key);
      AfterIs(args, r.now, StoreAfter(args, init), r.entries, key);
      NextMod(Streak(args, init, key), args.fails);
      var e := EntryOf(r.entries, key);
      if e.Some? {
        CheckFails(args, r.now, e.value, Stored(StoreAfter(args, init), key));
      }
      hide After, EntryOf;
    }
  }

  /** The counter of a chain after one check, by verdict. */
  lemma CheckFails(args: Args, now: real, e: Entry, st: Counters)
    ensures var o := Check(args, now, e, st);
            match o.verdict
            case Absent => false
            case Unchecked => o.st.fails == st.fails && !o.restart
            case Healthy => o.st.fails == 0 && !o.restart
            case Failing => o.restart == (st.fails + 1 >= args.fails) && o.st.fails == if o.restart then 0 else st.fails + 1
  {
    hide InGrace, StallCheck;
  }

  /** So stored counters stay below the limit. */
  lemma {:induction false} CountersStayBelow(args: Args, runs: seq<Run>, key: string)
    requires args.fails > 0
    ensures Stored(StoreAfter(args, runs), key).fails < args.fails
  {
    CounterIsStreak(args, runs, key);
  }

  /** A run restarts a chain exactly when its check fails and the streak has reached a multiple of the
      limit: the N-th consecutive failure since it was last healthy, restarted or first seen. */
  lemma {:induction false} RestartsExactly(args: Args, runs: seq<Run>, key: string)
    requires args.fails > 0 && runs != [] && RunsOk(runs)
    ensures RestartedBy(args, runs, key)
            <==> VerdictOf(args, runs, key) == Failing && Streak(args, runs, key) % args.fails == 0
  {
    hide Check;
    var init, r := runs[..|runs| - 1], runs[|runs| - 1];
    RestartedIs(args, runs, key);
    CounterIsStreak(args, init, key);
    NextMod(Streak(args, init, key), args.fails);
    var e := EntryOf(r.entries, key);
    if e.Some? {
      CheckFails(args, r.now, e.value, Stored(StoreAfter(args, init), key));
    }
    hide StoreAfter, RestartedBy, KeysOnce, EntryOf;
  }

  /** Failing verdicts in the runs from a to b. */
  function FailingBetween(args: Args, runs: seq<Run>, key: string, a: nat, b: nat): nat
    requires a <= b <= |runs|
    decreases b - a
  {
    if a == b then 0 else FailingBetween(args, runs, key, a, b - 1) + if VerdictOf(args, runs[..b], key) == Failing then 1 else 0
  }

  /** The verdicts that end a streak. */
  predicate Ends(v: Verdict) {
    v.Absent? || v.Healthy?
  }

  /** The streak, counted out: the failing checks after the last run that found the chain healthy or gone. */
  lemma {:induction false} StreakCounted(args: Args, runs: seq<Run>, key: string)
    ensures exists a :: 0 <= a <= |runs| && Streak(args, runs, key) == FailingBetween(args, runs, key, a, |runs|)
              && (a > 0 ==> Ends(VerdictOf(args, runs[..a], key)))
              && forall b :: a < b <= |runs| ==> !Ends(VerdictOf(args, runs[..b], key))
    decreases |runs|
  {
    hide VerdictOf;
    assert runs[..|runs|] == runs;
    if runs == [] {
      assert FailingBetween(args, runs, key, 0, 0) == 0;
    } else if Ends(VerdictOf(args, runs, key)) {
      assert FailingBetween(args, runs, key, |runs|, |runs|) == 0;
    } else {
      var init := runs[..|runs| - 1];
      StreakCounted(args, init, key);
      var a :| 0 <= a <= |init| && Streak(args, init, key) == FailingBetween(args, init, key, a, |init|)
               && (a > 0 ==> Ends(VerdictOf(args, init[..a], key)))
               && forall b :: a < b <= |init| ==> !Ends(VerdictOf(args, init[..b], key));
      SamePrefix(args, init, runs, key, a, |init|);
      assert init[..a] == runs[..a];
      forall b | a < b <= |runs| ensures !Ends(VerdictOf(args, runs[..b], key)) {
        if b < |runs| {
          assert init[..b] == runs[..b];
        } else {
          assert runs[..b] == runs;
        }
      }
      assert Streak(args, runs, key) == FailingBetween(args, runs, key, a, |runs|);
    }
  }

  lemma {:induction false} SamePrefix(args: Args, init: seq<Run>, runs: seq<Run>, key: string, a: nat, b: nat)
    requires a <= b <= |init| < |runs| && init == runs[..|init|]
    ensures FailingBetween(args, init, key, a, b) == FailingBetween(args, runs, key, a, b)
    decreases b - a
  {
    hide VerdictOf;
    if a < b {
      SamePrefix(args, init, runs, key, a, b - 1);
      assert init[..b] == runs[..b];
    }
  }

  // --- stalls ----------------------------------------------------------------------------------------

  /** The frame count run n compares for a chain, if any. */
  function ComparedBy(args: Args, r: Run, key: string): Option<int> {
    var e := EntryOf(r.entries, key);
    if e.None? then None else Compared(args, r.now, e.value)
  }

  /** Since run j the chain was always there, and every frame count compared was f. */
  ghost predicate Frozen(args: Args, runs: seq<Run>, key: string, j: int, f: int) {
    && 0 <= j < |runs| && ComparedBy(args, runs[j], key) == Some(f)
    && forall m :: j <= m < |runs| ==>
         EntryOf(runs[m].entries, key).Some? && (ComparedBy(args, runs[m], key) == Some(f) || ComparedBy(args, runs[m], key) == None)
  }

  /** The stored frame count goes back to the run that first compared it. */
  lemma {:induction false} StoredFramesAreFrozen(args: Args, runs: seq<Run>, key: string)
    ensures var st := Stored(StoreAfter(args, runs), key);
            && (st.frames.Some? <==> st.since.Some?)
            && (st.frames.Some? ==> exists j :: Frozen(args, runs, key, j, st.frames.value) && runs[j].now == st.since.value)
    decreases |runs|
  {
    if runs != [] {
      var init, r := runs[..|runs| - 1], runs[|runs| - 1];
      StoredFramesAreFrozen(args, init, key);
      AfterIs(args, r.now, StoreAfter(args, init), r.entries, key);
      var e, was := EntryOf(r.entries, key), Stored(StoreAfter(args, init), key);
      if e.Some? {
        CheckFrames(args, r.now, e.value, was);
        var st := Check(args, r.now, e.value, was).st;
        hide Check, StoreAfter, Compared;
        if Compared(args, r.now, e.value).Some? && was.frames != Compared(args, r.now, e.value) {
          assert Frozen(args, runs, key, |runs| - 1, st.frames.value);
        } else if was.frames.Some? {
          var j :| Frozen(args, init, key, j, was.frames.value) && init[j].now == was.since.value;
          assert Frozen(args, runs, key, j, was.frames.value) && runs[j].now == was.since.value;
        }
      }
    }
  }

  lemma CheckFrames(args: Args, now: real, e: Entry, st: Counters)
    requires e.live && (st.frames.Some? <==> st.since.Some?)
    ensures var c, st' := Compared(args, now, e), Check(args, now, e, st).st;
            if c.Some? && st.frames != c then st'.frames == c && st'.since == Some(now)
            else st'.frames == st.frames && st'.since == st.since
  {
  }

  /** The last run's check of a chain reports a stall. */
  predicate Stalls(args: Args, runs: seq<Run>, key: string)
    requires runs != []
  {
    var r := runs[|runs| - 1];
    var e := EntryOf(r.entries, key);
    && e.Some? && Compared(args, r.now, e.value).Some?
    && StallCheck(args, r.now, e.value.reply, Stored(StoreAfter(args, runs[..|runs| - 1]), key)).1
  }

  /** A stall is reported only if an earlier run, at least the threshold ago, compared the same frame count,
      and no frame count compared since then differed. */
  lemma {:induction false} StallsAreReal(args: Args, runs: seq<Run>, key: string)
    requires runs != [] && Stalls(args, runs, key)
    ensures var r := runs[|runs| - 1];
            var e := EntryOf(r.entries, key).value;
            exists j :: Frozen(args, runs, key, j, e.reply.frames.value)
                        && r.now - runs[j].now >= Threshold(args, e.reply).value
  {
    var init, r := runs[..|runs| - 1], runs[|runs| - 1];
    var e, was := EntryOf(r.entries, key).value, Stored(StoreAfter(args, init), key);
    StoredFramesAreFrozen(args, init, key);
    assert was.frames == e.reply.frames;
    hide StoreAfter, Compared, StallCheck, EntryOf, Stored;
    var j :| Frozen(args, init, key, j, was.frames.value) && init[j].now == was.since.value;
    assert Frozen(args, runs, key, j, was.frames.value);
  }
}
