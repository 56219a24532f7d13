/** The simulator's clocks together: true time, every device clock, pending PPS latches, missing PPS
    edges (time part of active_backend_sim.py). Values only; `SimClockObject` updates them in place. */
module SimClocks {
  import opened Results
  import opened DeviceClocks
  import opened Pps

  type Device = string

  datatype ClockSource = Internal | External | Mboard | Gpsdo

  /** Fixed for a run: the devices, the master, the rate error of each oscillator, the PPS skew. */
  datatype Rig = Rig(
    devices: set<Device>,
    master: Device,
    internalRate: map<Device, real>,
    gpsRate: map<Device, real>,
    skewTicks: int)

  ghost predicate RigOk(rig: Rig) {
    && rig.internalRate.Keys == rig.devices == rig.gpsRate.Keys
    && forall d :: d in rig.devices ==> rig.internalRate[d] > -1.0 && rig.gpsRate[d] > -1.0
  }

  /** A time to load on `dev` at the first PPS edge after `req`, `latency` late. */
  datatype Latch = Latch(dev: Device, req: real, value: real, latency: real)

  datatype Clocks = Clocks(
    now: real,
    clk: map<Device, seq<Anchor>>,
    pending: seq<Latch>,
    gaps: seq<Gap>,
    loaded: set<Device>,
    source: map<Device, ClockSource>,
    unlocked: set<Device>,
    tick: map<Device, int>)

  /** At most one latch per device. */
  ghost predicate OnePerDevice(pending: seq<Latch>) {
    forall i, j :: 0 <= i < j < |pending| ==> pending[i].dev != pending[j].dev
  }

  /** Every device has a clock that has begun. */
  ghost predicate AllRunning(devices: set<Device>, clk: map<Device, seq<Anchor>>, now: real) {
    && clk.Keys == devices
    && forall d :: d in devices ==> Wellformed(clk[d]) && clk[d][0].at <= now
  }

  lemma RunningKeys(devices: set<Device>, clk: map<Device, seq<Anchor>>, now: real)
    requires AllRunning(devices, clk, now)
    ensures clk.Keys == devices
  {
  }

  ghost predicate LatchesOk(devices: set<Device>, pending: seq<Latch>) {
    && OnePerDevice(pending)
    && forall i :: 0 <= i < |pending| ==> pending[i].dev in devices
  }

  ghost predicate Valid(rig: Rig, s: Clocks) {
    && RigOk(rig)
    && AllRunning(rig.devices, s.clk, s.now)
    && s.source.Keys == rig.devices
    && s.tick.Keys == rig.devices && (forall d :: d in rig.devices ==> s.tick[d] > 0)
    && LatchesOk(rig.devices, s.pending)
    && GapsUntil(s.gaps, s.now)
  }

  /** Rate error of the reference a device runs on: none on a shared external reference. */
  function CurrentRate(rig: Rig, s: Clocks, d: Device): (r: real)
    requires RigOk(rig) && s.source.Keys == rig.devices && d in rig.devices
    ensures r > -1.0
  {
    if d in s.unlocked then rig.internalRate[d]
    else match s.source[d]
      case External => 0.0
      case Mboard => 0.0
      case Gpsdo => rig.gpsRate[d]
      case Internal => rig.internalRate[d]
  }

  function Latency(rig: Rig, s: Clocks, d: Device): real
    requires d in s.tick && s.tick[d] > 0
  {
    if d == rig.master then 0.0 else rig.skewTicks as real / s.tick[d] as real
  }

  // --- time goes by ----------------------------------------------------------------------------

  function Due(gaps: seq<Gap>, p: Latch, until: real): Option<int> {
    FirstEdge(gaps, p.req, until)
  }

  /** The clock of a device whose latch catches the edge. */
  function Latched(rig: Rig, s: Clocks, c: seq<Anchor>, p: Latch, edge: int): seq<Anchor>
    requires RigOk(rig) && s.source.Keys == rig.devices && p.dev in rig.devices
  {
    Load(c, edge as real + p.latency, p.value, CurrentRate(rig, s, p.dev))
  }

  /** Commits the latches of `todo` that are due by `until`, in list order. */
  function CommitAll(rig: Rig, s: Clocks, clk: map<Device, seq<Anchor>>, todo: seq<Latch>, until: real): (r: map<Device, seq<Anchor>>)
    requires RigOk(rig) && s.source.Keys == rig.devices
    requires forall i :: 0 <= i < |todo| ==> todo[i].dev in rig.devices
    requires AllRunning(rig.devices, clk, s.now)
    ensures AllRunning(rig.devices, r, s.now)
    decreases |todo|
  {
    if todo == [] then clk
    else
      var p, e := todo[0], Due(s.gaps, todo[0], until);
      if e.None? then CommitAll(rig, s, clk, todo[1..], until)
      else
        LoadWellformed(clk[p.dev], e.value as real + p.latency, p.value, CurrentRate(rig, s, p.dev));
        CommitAll(rig, s, clk[p.dev := Latched(rig, s, clk[p.dev], p, e.value)], todo[1..], until)
  }

  /** The latches that go on waiting. */
  function Kept(gaps: seq<Gap>, todo: seq<Latch>, until: real): seq<Latch>
    decreases |todo|
  {
    if todo == [] then []
    else (if Due(gaps, todo[0], until).None? then [todo[0]] else []) + Kept(gaps, todo[1..], until)
  }

  /** The devices whose latch is due. */
  function Committed(gaps: seq<Gap>, todo: seq<Latch>, until: real): set<Device>
    decreases |todo|
  {
    if todo == [] then {}
    else (if Due(gaps, todo[0], until).Some? then {todo[0].dev} else {}) + Committed(gaps, todo[1..], until)
  }

  function AdvanceTo(rig: Rig, s: Clocks, to: real): Clocks
    requires Valid(rig, s)
  {
    if to <= s.now then s
    else s.(clk := CommitAll(rig, s, s.clk, s.pending, to),
            loaded := s.loaded + Committed(s.gaps, s.pending, to),
            pending := Kept(s.gaps, s.pending, to),
            now := to)
  }

  /** One turn of the loop over the pending latches. */
  lemma CommitStep(rig: Rig, s: Clocks, clk: map<Device, seq<Anchor>>, todo: seq<Latch>, i: nat, until: real)
    requires RigOk(rig) && s.source.Keys == rig.devices && i < |todo|
    requires forall j :: 0 <= j < |todo| ==> todo[j].dev in rig.devices
    requires AllRunning(rig.devices, clk, s.now)
    ensures var p, e := todo[i], Due(s.gaps, todo[i], until);
            && p.dev in clk
            && Kept(s.gaps, todo[i..], until) == (if e.None? then [p] else []) + Kept(s.gaps, todo[i + 1..], until)
            && Committed(s.gaps, todo[i..], until) == (if e.Some? then {p.dev} else {}) + Committed(s.gaps, todo[i + 1..], until)
            && (e.None? ==> CommitAll(rig, s, clk, todo[i..], until) == CommitAll(rig, s, clk, todo[i + 1..], until))
            && (e.Some? ==>
                  var clk' := clk[p.dev := Latched(rig, s, clk[p.dev], p, e.value)];
                  AllRunning(rig.devices, clk', s.now)
                  && CommitAll(rig, s, clk, todo[i..], until) == CommitAll(rig, s, clk', todo[i + 1..], until))
  {
    assert todo[i..][0] == todo[i] && todo[i..][1..] == todo[i + 1..];
    var p, e := todo[i], Due(s.gaps, todo[i], until);
    if e.Some? {
      LoadWellformed(clk[p.dev], e.value as real + p.latency, p.value, CurrentRate(rig, s, p.dev));
    }
  }

  lemma FinishedCommit(rig: Rig, s: Clocks, clk: map<Device, seq<Anchor>>, until: real)
    requires RigOk(rig) && s.source.Keys == rig.devices && AllRunning(rig.devices, clk, s.now)
    ensures CommitAll(rig, s, clk, [], until) == clk
    ensures Kept(s.gaps, [], until) == [] && Committed(s.gaps, [], until) == {}
  {
  }

  lemma {:induction false} KeptIsPart(gaps: seq<Gap>, todo: seq<Latch>, until: real)
    ensures forall i :: 0 <= i < |Kept(gaps, todo, until)| ==> Kept(gaps, todo, until)[i] in todo
    ensures OnePerDevice(todo) ==> OnePerDevice(Kept(gaps, todo, until))
    decreases |todo|
  {
    if todo != [] {
      KeptIsPart(gaps, todo[1..], until);
      var rest := Kept(gaps, todo[1..], until);
      if OnePerDevice(todo) {
        forall i | 0 <= i < |rest| ensures rest[i].dev != todo[0].dev {
          var j :| 0 <= j < |todo[1..]| && todo[1..][j] == rest[i];
          assert todo[0].dev != todo[j + 1].dev;
        }
      }
    }
  }

  lemma {:induction false} AdvanceValid(rig: Rig, s: Clocks, to: real)
    requires Valid(rig, s)
    ensures Valid(rig, AdvanceTo(rig, s, to))
    ensures AdvanceTo(rig, s, to).now == if to <= s.now then s.now else to
  {
    KeptIsPart(s.gaps, s.pending, to);
  }

  // --- one device at a time --------------------------------------------------------------------

  /** The first latch waiting for a device. */
  function LatchOf(pending: seq<Latch>, d: Device): (p: Option<Latch>)
    ensures p.Some? ==> p.value in pending && p.value.dev == d
    ensures p.None? ==> forall i :: 0 <= i < |pending| ==> pending[i].dev != d
    decreases |pending|
  {
    if pending == [] then None else if pending[0].dev == d then Some(pending[0]) else LatchOf(pending[1..], d)
  }

  /** Is the latch of `d` due by `until`, and at which edge? */
  function EdgeFor(gaps: seq<Gap>, p: Option<Latch>, until: real): Option<int> {
    if p.Some? then Due(gaps, p.value, until) else None
  }

  /** With one latch per device, committing in list order acts on each device by itself. */
  lemma {:induction false} CommitPointwise(rig: Rig, s: Clocks, clk: map<Device, seq<Anchor>>, todo: seq<Latch>, until: real, d: Device)
    requires RigOk(rig) && s.source.Keys == rig.devices && d in rig.devices
    requires LatchesOk(rig.devices, todo)
    requires AllRunning(rig.devices, clk, s.now)
    ensures var p := LatchOf(todo, d);
            var e := EdgeFor(s.gaps, p, until);
            CommitAll(rig, s, clk, todo, until)[d] == if e.Some? then Latched(rig, s, clk[d], p.value, e.value) else clk[d]
    decreases |todo|
  {
    if todo != [] {
      var p, e := todo[0], Due(s.gaps, todo[0], until);
      if p.dev == d { NoOther(todo, d); }
      if e.Some? {
        LoadWellformed(clk[p.dev], e.value as real + p.latency, p.value, CurrentRate(rig, s, p.dev));
        var clk' := clk[p.dev := Latched(rig, s, clk[p.dev], p, e.value)];
        CommitPointwise(rig, s, clk', todo[1..], until, d);
      } else {
        CommitPointwise(rig, s, clk, todo[1..], until, d);
      }
    }
  }

  lemma {:induction false} KeptPointwise(gaps: seq<Gap>, todo: seq<Latch>, until: real, d: Device)
    requires OnePerDevice(todo)
    ensures var p := LatchOf(todo, d);
            var e := EdgeFor(gaps, p, until);
            && (d in Committed(gaps, todo, until) <==> e.Some?)
            && LatchOf(Kept(gaps, todo, until), d) == (if e.Some? then None else p)
    decreases |todo|
  {
    hide Due;
    if todo != [] {
      if todo[0].dev == d { NoOther(todo, d); }
      KeptPointwise(gaps, todo[1..], until, d);
      var rest := Kept(gaps, todo[1..], until);
      assert ([todo[0]] + rest)[1..] == rest;
      assert [] + rest == rest;
    }
  }

  lemma NoOther(todo: seq<Latch>, d: Device)
    requires todo != [] && todo[0].dev == d && OnePerDevice(todo)
    ensures LatchOf(todo[1..], d).None?
  {
  }

  // --- time in several steps -------------------------------------------------------------------

  lemma {:induction false} KeptTwice(gaps: seq<Gap>, todo: seq<Latch>, mid: real, to: real)
    requires mid <= to
    ensures Kept(gaps, Kept(gaps, todo, mid), to) == Kept(gaps, todo, to)
    decreases |todo|
  {
    if todo != [] {
      KeptTwice(gaps, todo[1..], mid, to);
      FirstEdgeStable(gaps, todo[0].req, mid, to);
      hide Due;
      var rest := Kept(gaps, todo[1..], mid);
      assert ([todo[0]] + rest)[1..] == rest;
      assert [] + rest == rest;
    }
  }

  /** What `AdvanceTo` does to one device. */
  lemma AdvancePointwise(rig: Rig, s: Clocks, to: real, d: Device)
    requires Valid(rig, s) && d in rig.devices && to > s.now
    ensures var p := LatchOf(s.pending, d);
            var e := EdgeFor(s.gaps, p, to);
            var r := AdvanceTo(rig, s, to);
            && r.clk.Keys == rig.devices
            && r.clk[d] == (if e.Some? then Latched(rig, s, s.clk[d], p.value, e.value) else s.clk[d])
            && (d in r.loaded <==> d in s.loaded || e.Some?)
            && LatchOf(r.pending, d) == (if e.Some? then None else p)
  {
    CommitPointwise(rig, s, s.clk, s.pending, to, d);
    KeptPointwise(s.gaps, s.pending, to, d);
  }

  lemma {:induction false} CommittedKnown(gaps: seq<Gap>, todo: seq<Latch>, until: real, devices: set<Device>)
    requires forall i :: 0 <= i < |todo| ==> todo[i].dev in devices
    ensures Committed(gaps, todo, until) <= devices
    decreases |todo|
  {
    if todo != [] { CommittedKnown(gaps, todo[1..], until, devices); }
  }

  lemma {:induction false} SplitOnDevice(rig: Rig, s: Clocks, mid: real, to: real, d: Device)
    requires Valid(rig, s) && d in rig.devices && s.now < mid < to
    ensures Valid(rig, AdvanceTo(rig, s, mid))
    ensures var one, two := AdvanceTo(rig, s, to), AdvanceTo(rig, AdvanceTo(rig, s, mid), to);
            && one.clk.Keys == two.clk.Keys == rig.devices
            && one.clk[d] == two.clk[d]
            && (d in one.loaded <==> d in two.loaded)
  {
    hide *;
    AdvanceValid(rig, s, mid);
    var m := AdvanceTo(rig, s, mid);
    AdvanceFrame(rig, s, mid);
    AdvancePointwise(rig, s, mid, d);
    AdvancePointwise(rig, s, to, d);
    AdvancePointwise(rig, m, to, d);
    var p := LatchOf(s.pending, d);
    EdgeForStable(s.gaps, p, mid, to);
    if p.Some? {
      var e := EdgeFor(s.gaps, p, to);
      if e.Some? {
        SameLatched(rig, s, m, s.clk[d], p.value, e.value);
      }
    }
  }

  /** What time going by does not touch. */
  lemma AdvanceFrame(rig: Rig, s: Clocks, to: real)
    requires Valid(rig, s)
    ensures var r := AdvanceTo(rig, s, to);
            && r.gaps == s.gaps && r.source == s.source && r.unlocked == s.unlocked && r.tick == s.tick
            && (to > s.now ==> r.now == to && r.pending == Kept(s.gaps, s.pending, to) && r.loaded == s.loaded + Committed(s.gaps, s.pending, to))
    ensures RigOk(rig) && s.source.Keys == s.clk.Keys == rig.devices
  {
    hide CommitAll, Kept, Committed, RigOk, LatchesOk, GapsUntil, Wellformed;
  }

  lemma SameLatched(rig: Rig, s: Clocks, m: Clocks, c: seq<Anchor>, p: Latch, edge: int)
    requires RigOk(rig) && s.source.Keys == rig.devices && p.dev in rig.devices && m.source == s.source && m.unlocked == s.unlocked
    ensures Latched(rig, s, c, p, edge) == Latched(rig, m, c, p, edge)
  {
    hide Load, RigOk;
  }

  lemma EdgeForStable(gaps: seq<Gap>, p: Option<Latch>, mid: real, to: real)
    requires mid <= to
    ensures EdgeFor(gaps, None, to) == None
    ensures EdgeFor(gaps, p, mid).Some? ==> EdgeFor(gaps, p, to) == EdgeFor(gaps, p, mid)
  {
    if p.Some? {
      FirstEdgeStable(gaps, p.value.req, mid, to);
    }
    hide FirstEdge;
  }

  /** Stopping on the way changes nothing: same clocks, same latches, same loaded flags. */
  lemma {:induction false} AdvanceSplit(rig: Rig, s: Clocks, mid: real, to: real)
    requires Valid(rig, s) && mid <= to
    ensures Valid(rig, AdvanceTo(rig, s, mid))
    ensures AdvanceTo(rig, AdvanceTo(rig, s, mid), to) == AdvanceTo(rig, s, to)
  {
    hide *;
    AdvanceValid(rig, s, mid);
    AdvanceFrame(rig, s, mid);
    if s.now < mid < to {
      var m := AdvanceTo(rig, s, mid);
      var one, two := AdvanceTo(rig, s, to), AdvanceTo(rig, m, to);
      AdvanceFrame(rig, s, to);
      AdvanceFrame(rig, m, to);
      KeptTwice(s.gaps, s.pending, mid, to);
      KnownLatches(rig, s, mid, to);
      AdvanceValid(rig, m, to);
      AdvanceValid(rig, s, to);
      AdvanceFrame(rig, one, to);
      AdvanceFrame(rig, two, to);
      forall d | d in rig.devices ensures d in one.clk && d in two.clk && one.clk[d] == two.clk[d] && (d in one.loaded <==> d in two.loaded) {
        SplitOnDevice(rig, s, mid, to, d);
      }
      SameByDevice(rig, s, one, two);
    } else {
      NoTimePasses(rig, s, mid, to);
    }
  }

  lemma NoTimePasses(rig: Rig, s: Clocks, mid: real, to: real)
    requires Valid(rig, s) && mid <= to && !(s.now < mid < to) && Valid(rig, AdvanceTo(rig, s, mid))
    ensures AdvanceTo(rig, AdvanceTo(rig, s, mid), to) == AdvanceTo(rig, s, to)
  {
    hide CommitAll, Kept, Committed, Valid;
  }

  lemma KnownLatches(rig: Rig, s: Clocks, mid: real, to: real)
    requires Valid(rig, s)
    ensures Committed(s.gaps, s.pending, to) <= rig.devices && Committed(s.gaps, s.pending, mid) <= rig.devices
    ensures Committed(s.gaps, Kept(s.gaps, s.pending, mid), to) <= rig.devices
  {
    hide Kept, Committed, RigOk, AllRunning, GapsUntil;
    CommittedKnown(s.gaps, s.pending, to, rig.devices);
    CommittedKnown(s.gaps, s.pending, mid, rig.devices);
    KeptIsPart(s.gaps, s.pending, mid);
    CommittedKnown(s.gaps, Kept(s.gaps, s.pending, mid), to, rig.devices);
  }

  lemma SameByDevice(rig: Rig, s: Clocks, one: Clocks, two: Clocks)
    requires one.clk.Keys == two.clk.Keys == rig.devices
    requires forall d :: d in rig.devices ==> one.clk[d] == two.clk[d] && (d in one.loaded <==> d in two.loaded)
    requires s.loaded <= one.loaded <= s.loaded + rig.devices && s.loaded <= two.loaded <= s.loaded + rig.devices
    requires (one.now, one.pending, one.gaps, one.source, one.unlocked, one.tick) == (two.now, two.pending, two.gaps, two.source, two.unlocked, two.tick)
    ensures one == two
  {
    assert one.clk == two.clk;
    assert one.loaded == two.loaded;
  }

  function AdvanceAll(rig: Rig, s: Clocks, stops: seq<real>): (r: Clocks)
    requires Valid(rig, s)
    decreases |stops|
  {
    if stops == [] then s
    else
      AdvanceValid(rig, s, stops[0]);
      AdvanceAll(rig, AdvanceTo(rig, s, stops[0]), stops[1..])
  }

  /** Advancing through any stops, in any order, is one advance to the latest of them. */
  lemma {:induction false} AdvanceInAnySteps(rig: Rig, s: Clocks, stops: seq<real>, last: real)
    requires Valid(rig, s)
    requires forall i :: 0 <= i < |stops| ==> stops[i] <= last
    requires last in stops
    ensures AdvanceAll(rig, s, stops) == AdvanceTo(rig, s, last)
    decreases |stops|
  {
    AdvanceValid(rig, s, stops[0]);
    var m := AdvanceTo(rig, s, stops[0]);
    if last in stops[1..] {
      AdvanceInAnySteps(rig, m, stops[1..], last);
      AdvanceSplit(rig, s, stops[0], last);
    } else {
      NoFurther(rig, m, stops[1..], last);
    }
  }

  lemma {:induction false} NoFurther(rig: Rig, s: Clocks, stops: seq<real>, last: real)
    requires Valid(rig, s) && s.now >= last
    requires forall i :: 0 <= i < |stops| ==> stops[i] <= last
    ensures AdvanceAll(rig, s, stops) == s
    decreases |stops|
  {
    if stops != [] { NoFurther(rig, s, stops[1..], last); }
  }
}
