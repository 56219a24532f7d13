/** The simulator's oscillators as an object: `_draw_lo`, `_do_tune`, `_do_set_lo_source`,
    `_do_set_lo_export` and `_do_open` of active_backend_sim.py, updating stored phases in place. */
module SimLoObjects {
  import opened HalfEven
  import opened LoPlans
  import opened Backends
  import opened SimLos
  import opened LoPhases

  type Phases = map<(Direction, ChannelRef), real>

  /** The stored phase of every channel of the device is the phase of the draw. */
  ghost predicate Shows(w: World, phases: Phases, d: DeviceCfg, dir: Direction, draw: Draw)
    requires w.period > 0.0
  {
    forall c :: c in Channels(d, dir) ==>
      var ref := ChannelRef(d.name, c);
      (dir, ref) in phases && phases[(dir, ref)] == PhaseOfDraw(w, dir, ref, draw)
  }

  /** Nothing but the phases of one device and direction differs. */
  ghost predicate OnlyDevice(was: Phases, phases: Phases, name: string, dir: Direction) {
    forall k: (Direction, ChannelRef) :: k.0 != dir || k.1.device != name ==>
      (k in was <==> k in phases) && (k in was ==> was[k] == phases[k])
  }

  /** One channel's phase, by class, brought into the turn around zero. */
  method DrawChannel(w: World, dir: Direction, ref: ChannelRef, draw: Draw) returns (phase: real)
    requires w.period > 0.0
    ensures phase == PhaseOfDraw(w, dir, ref, draw)
    ensures -w.period / 2.0 <= phase < w.period / 2.0
  {
    var key := Round(draw.f);
    var ph: real;
    if draw.cls.SharedLo? {
      ph := w.u(SharedKey(dir, draw.tunes)) + w.u(PathKey(ref, dir));
    } else if draw.cls.Repeatable? {
      ph := w.u(RepeatableKey(ref, dir, key));
    } else if draw.cls.Ambiguous180? {
      ph := w.u(BaseKey(ref, dir, key)) + if w.bit(BitKey(ref, dir, draw.count)) then w.period / 2.0 else 0.0;
    } else if draw.cls.Deterministic? {
      ph := w.u(FixedKey(ref, dir));
    } else {
      ph := w.u(RandomKey(ref, dir, draw.count));
    }
    phase := Wrap(w.period, ph);
    WrapRange(w.period, ph);
  }

  /** `_draw_lo`: every channel of the device. */
  method DrawDevice(w: World, d: DeviceCfg, dir: Direction, draw: Draw, was: Phases) returns (phases: Phases)
    requires w.period > 0.0
    ensures Shows(w, phases, d, dir, draw) && OnlyDevice(was, phases, d.name, dir)
  {
    hide PhaseOfDraw;
    phases := was;
    var cs := Channels(d, dir);
    var i := 0;
    while i < |cs|
      invariant i <= |cs| && OnlyDevice(was, phases, d.name, dir)
      invariant forall j :: 0 <= j < i ==>
                  var ref := ChannelRef(d.name, cs[j]);
                  (dir, ref) in phases && phases[(dir, ref)] == PhaseOfDraw(w, dir, ref, draw)
    {
      var ref := ChannelRef(d.name, cs[i]);
      var ph := DrawChannel(w, dir, ref, draw);
      phases := phases[(dir, ref) := ph];
      i := i + 1;
    }
  }

  /** All devices show the draws of the map. */
  ghost predicate ShowAll(w: World, phases: Phases, devs: seq<DeviceCfg>, dir: Direction, drawn: map<LoKey, Draw>)
    requires w.period > 0.0
  {
    forall i :: 0 <= i < |devs| ==>
      (devs[i].name, dir) in drawn ==> Shows(w, phases, devs[i], dir, drawn[(devs[i].name, dir)])
  }

  /** A change that touches another direction or device leaves what is shown. */
  lemma ShowsKept(w: World, was: Phases, phases: Phases, name: string, dir: Direction, d: DeviceCfg, dir2: Direction, draw: Draw)
    requires w.period > 0.0 && Shows(w, was, d, dir2, draw) && OnlyDevice(was, phases, name, dir)
    requires dir2 != dir || d.name != name
    ensures Shows(w, phases, d, dir2, draw)
  {
    hide PhaseOfDraw;
  }

  lemma AllKept(w: World, was: Phases, phases: Phases, name: string, dir: Direction, devs: seq<DeviceCfg>, dir2: Direction, drawn: map<LoKey, Draw>)
    requires w.period > 0.0 && ShowAll(w, was, devs, dir2, drawn) && OnlyDevice(was, phases, name, dir)
    requires dir2 != dir || forall i :: 0 <= i < |devs| ==> devs[i].name != name
    ensures ShowAll(w, phases, devs, dir2, drawn)
  {
    hide Shows, OnlyDevice;
    forall i | 0 <= i < |devs| && (devs[i].name, dir2) in drawn ensures Shows(w, phases, devs[i], dir2, drawn[(devs[i].name, dir2)]) {
      ShowsKept(w, was, phases, name, dir, devs[i], dir2, drawn[(devs[i].name, dir2)]);
    }
  }

  /** The device loop of `_do_tune`. */
  method DrawAll(cfg: Cfg, w: World, s: SimLo, dir: Direction, center: real, n: nat, at: bool, ahead: set<string>, devs: seq<DeviceCfg>, was: Phases)
    returns (draws: map<LoKey, Draw>, phases: Phases)
    requires w.period > 0.0 && UniqueNames(devs)
    ensures draws == DrawsOf(cfg, w, s, dir, center, n, at, ahead, devs)
    ensures ShowAll(w, phases, devs, dir, draws)
    ensures forall k: (Direction, ChannelRef) :: k.0 != dir ==> (k in was <==> k in phases) && (k in was ==> was[k] == phases[k])
  {
    hide *;
    draws, phases := map[], was;
    var i := 0;
    NothingDrawn(cfg, w, s, dir, center, n, at, ahead, was);
    assert devs[..0] == [];
    while i < |devs|
      invariant i <= |devs| && draws == DrawsOf(cfg, w, s, dir, center, n, at, ahead, devs[..i])
      invariant ShowAll(w, phases, devs[..i], dir, draws)
      invariant forall k: (Direction, ChannelRef) :: k.0 != dir ==> (k in was <==> k in phases) && (k in was ==> was[k] == phases[k])
    {
      var d := devs[i];
      var draw := Draw(PhysicalClass(cfg, s, d, dir, center, PhysicallyTimed(w, d, at, ahead)),
                       center, n, DrawCount(s, (d.name, dir)) + 1);
      var next := DrawDevice(w, d, dir, draw, phases);
      ShowStep(w, phases, next, devs, i, dir, draws, draw);
      DrawsStep(cfg, w, s, dir, center, n, at, ahead, devs, i);
      draws, phases := draws[(d.name, dir) := draw], next;
      i := i + 1;
    }
    assert devs[..|devs|] == devs;
  }

  lemma NothingDrawn(cfg: Cfg, w: World, s: SimLo, dir: Direction, center: real, n: nat, at: bool, ahead: set<string>, phases: Phases)
    requires w.period > 0.0
    ensures DrawsOf(cfg, w, s, dir, center, n, at, ahead, []) == map[] && ShowAll(w, phases, [], dir, map[])
  {
  }

  lemma DrawsStep(cfg: Cfg, w: World, s: SimLo, dir: Direction, center: real, n: nat, at: bool, ahead: set<string>, devs: seq<DeviceCfg>, i: nat)
    requires i < |devs|
    ensures DrawsOf(cfg, w, s, dir, center, n, at, ahead, devs[..i + 1])
            == DrawsOf(cfg, w, s, dir, center, n, at, ahead, devs[..i])
               [(devs[i].name, dir) := Draw(PhysicalClass(cfg, s, devs[i], dir, center, PhysicallyTimed(w, devs[i], at, ahead)),
                                            center, n, DrawCount(s, (devs[i].name, dir)) + 1)]
  {
    hide PhysicalClass, PhysicallyTimed, DrawCount;
    assert devs[..i + 1][..i] == devs[..i];
  }

  lemma ShowStep(w: World, was: Phases, phases: Phases, devs: seq<DeviceCfg>, i: nat, dir: Direction, draws: map<LoKey, Draw>, draw: Draw)
    requires w.period > 0.0 && i < |devs| && UniqueNames(devs)
    requires ShowAll(w, was, devs[..i], dir, draws) && Shows(w, phases, devs[i], dir, draw)
    requires OnlyDevice(was, phases, devs[i].name, dir)
    ensures ShowAll(w, phases, devs[..i + 1], dir, draws[(devs[i].name, dir) := draw])
    ensures forall k: (Direction, ChannelRef) :: k.0 != dir ==> (k in was <==> k in phases) && (k in was ==> was[k] == phases[k])
  {
    AllKept(w, was, phases, devs[i].name, dir, devs[..i], dir, draws);
    hide Shows;
    var all, few, m := devs[..i + 1], devs[..i], draws[(devs[i].name, dir) := draw];
    forall j | 0 <= j < |all| && (all[j].name, dir) in m ensures Shows(w, phases, all[j], dir, m[(all[j].name, dir)]) {
      if j < i {
        assert few[j] == all[j] && all[j].name != devs[i].name;
      }
    }
  }

  /** Phases of one direction changed, and all its devices drawn: everything is still shown. */
  lemma {:induction false} StillShown(cfg: Cfg, w: World, s: SimLo, dir: Direction, center: real, n: nat, at: bool, ahead: set<string>, was: Phases, phases: Phases, dir2: Direction)
    requires w.period > 0.0 && UniqueNames(cfg.devices)
    requires ShowAll(w, was, WithChannels(cfg.devices, dir2), dir2, s.drawn)
    requires ShowAll(w, phases, WithChannels(cfg.devices, dir), dir, DrawsOf(cfg, w, s, dir, center, n, at, ahead, WithChannels(cfg.devices, dir)))
    requires forall k: (Direction, ChannelRef) :: k.0 != dir ==> (k in was <==> k in phases) && (k in was ==> was[k] == phases[k])
    ensures ShowAll(w, phases, WithChannels(cfg.devices, dir2), dir2, s.drawn + DrawsOf(cfg, w, s, dir, center, n, at, ahead, WithChannels(cfg.devices, dir)))
  {
    hide WithChannels, DrawsOf, PhysicalClass, PhaseOfDraw;
    var devs := WithChannels(cfg.devices, dir2);
    var draws := DrawsOf(cfg, w, s, dir, center, n, at, ahead, WithChannels(cfg.devices, dir));
    var all := s.drawn + draws;
    forall i | 0 <= i < |devs| && (devs[i].name, dir2) in all ensures Shows(w, phases, devs[i], dir2, all[(devs[i].name, dir2)]) {
      if dir2 == dir {
        WithChannelsUnique(cfg.devices, dir);
        DrawOfDevice(cfg, w, s, dir, center, n, at, ahead, devs, i);
        assert all[(devs[i].name, dir)] == draws[(devs[i].name, dir)];
      } else {
        assert (devs[i].name, dir2) !in draws;
        assert Shows(w, was, devs[i], dir2, s.drawn[(devs[i].name, dir2)]);
      }
    }
  }

  /** The phases of the constructor: RX drawn first, then TX. */
  lemma {:induction false} BothShown(cfg: Cfg, w: World, part: Phases, all: Phases)
    requires w.period > 0.0
    requires ShowAll(w, part, WithChannels(cfg.devices, Rx), Rx, FirstDraws(cfg, w, Rx))
    requires ShowAll(w, all, WithChannels(cfg.devices, Tx), Tx, FirstDraws(cfg, w, Tx))
    requires forall k: (Direction, ChannelRef) :: k.0 != Tx ==> (k in part <==> k in all) && (k in part ==> part[k] == all[k])
    ensures ShowAll(w, all, WithChannels(cfg.devices, Rx), Rx, Constructed(cfg, w).drawn)
    ensures ShowAll(w, all, WithChannels(cfg.devices, Tx), Tx, Constructed(cfg, w).drawn)
  {
    hide WithChannels, FirstDraws, PhaseOfDraw;
    var devs, draws := WithChannels(cfg.devices, Rx), FirstDraws(cfg, w, Rx);
    forall i | 0 <= i < |devs| && (devs[i].name, Rx) in draws ensures Shows(w, all, devs[i], Rx, draws[(devs[i].name, Rx)]) {
      assert Shows(w, part, devs[i], Rx, draws[(devs[i].name, Rx)]);
    }
  }

  class Oscillators {
    const cfg: Cfg
    const w: World
    var src: map<LoKey, LoSource>
    var exp: map<LoKey, bool>
    var fc: map<Direction, real>
    var tunes: map<Direction, nat>
    var phases: Phases
    var drawn: map<LoKey, Draw>

    function Value(): SimLo
      reads this
    {
      SimLo(src, exp, fc, tunes, drawn)
    }

    /** The stored phases are those of the last draws. */
    ghost predicate Valid()
      reads this
    {
      && w.period > 0.0 && UniqueNames(cfg.devices)
      && ShowAll(w, phases, WithChannels(cfg.devices, Rx), Rx, drawn)
      && ShowAll(w, phases, WithChannels(cfg.devices, Tx), Tx, drawn)
    }

    constructor (cfg: Cfg, w: World)
      requires w.period > 0.0 && UniqueNames(cfg.devices)
      ensures Valid() && Value() == Constructed(cfg, w) && this.cfg == cfg && this.w == w
    {
      hide ShowAll, WithChannels, DrawsOf, UniqueNames, Shows;
      WithChannelsUnique(cfg.devices, Rx);
      WithChannelsUnique(cfg.devices, Tx);
      var rx, part := DrawAll(cfg, w, Unprogrammed, Rx, cfg.centerFreq, 0, false, {}, WithChannels(cfg.devices, Rx), map[]);
      var tx, all := DrawAll(cfg, w, Unprogrammed, Tx, cfg.centerFreq, 0, false, {}, WithChannels(cfg.devices, Tx), part);
      this.cfg, this.w := cfg, w;
      src, exp, fc, tunes, phases, drawn := map[], map[], map[], map[], all, rx + tx;
      BothShown(cfg, w, part, all);
    }

    method Open()
      requires Valid()
      modifies this
      ensures Valid() && Value() == old(Value()).(src := map[], exp := map[]) && phases == old(phases)
    {
      src, exp := map[], map[];
    }

    method SetLoSource(dir: Direction, ref: ChannelRef, s: LoSource) returns (done: bool)
      requires Valid()
      modifies this
      ensures Valid() && phases == old(phases)
      ensures done <==> Configured(cfg, dir, ref) && !s.FromUnknown? && (s.FromInternal? || CanImport(cfg, ref.device))
      ensures Value() == if done then old(Value()).(src := old(src)[(ref.device, dir) := s]) else old(Value())
    {
      hide ShowAll, Configured, CanImport;
      done := Configured(cfg, dir, ref) && !s.FromUnknown? && (s.FromInternal? || CanImport(cfg, ref.device));
      if done {
        src := src[(ref.device, dir) := s];
      }
    }

    method SetLoExport(dir: Direction, ref: ChannelRef, on: bool) returns (done: bool)
      requires Valid()
      modifies this
      ensures Valid() && phases == old(phases)
      ensures done <==> Configured(cfg, dir, ref) && (!on || CanExport(cfg, ref.device))
      ensures Value() == if done then old(Value()).(exp := old(exp)[(ref.device, dir) := on]) else old(Value())
    {
      hide ShowAll, Configured, CanExport;
      done := Configured(cfg, dir, ref) && (!on || CanExport(cfg, ref.device));
      if done {
        exp := exp[(ref.device, dir) := on];
      }
    }

    /** `_do_tune`: what it reports, and phases drawn for every device of the direction. */
    method Tune(dir: Direction, f: real, at: bool, ahead: set<string>) returns (report: TuneHook)
      requires Valid()
      modifies this
      ensures Valid() && report == TuneResult(cfg, w, old(Value()), dir, f, at, ahead)
      ensures Value() == SimTune(cfg, w, old(Value()), dir, f, at, ahead)
    {
      hide ShowAll, BandCrossed, ClampFreq, WithChannels, PhysicallyTimed, Fc, DrawsOf, TuneCount, UniqueNames;
      var devs := WithChannels(cfg.devices, dir);
      WithChannelsUnique(cfg.devices, dir);
      var center := ClampFreq(devs, f);
      var was := Value();
      var n := TuneCount(was, dir) + 1;
      report := TuneHook(center,
                         devs != [] && forall i :: 0 <= i < |devs| ==> PhysicallyTimed(w, devs[i], at, ahead),
                         BandCrossed(devs, Fc(cfg, was, dir), center));
      var draws, next := DrawAll(cfg, w, Value(), dir, center, n, at, ahead, devs, phases);
      StillShown(cfg, w, was, dir, center, n, at, ahead, phases, next, Rx);
      StillShown(cfg, w, was, dir, center, n, at, ahead, phases, next, Tx);
      fc, tunes, phases := fc[dir := center], tunes[dir := n], next;
      drawn := drawn + draws;
    }
  }
}
