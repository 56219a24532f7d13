/** What one tune of the simulator does, device by device. */
module SimLoLaws {
  import opened LoPlans
  import opened Backends
  import opened SimLos
  import opened LoPhases

  /** A device tunes in this direction. */
  predicate Takes(cfg: Cfg, d: DeviceCfg, dir: Direction) {
    d in cfg.devices && Channels(d, dir) != []
  }

  lemma TakesExactly(cfg: Cfg, d: DeviceCfg, dir: Direction)
    ensures d in WithChannels(cfg.devices, dir) <==> Takes(cfg, d, dir)
  {
    hide WithChannels, Channels;
    var m := WithChannels(cfg.devices, dir);
    if d in m {
      var i :| 0 <= i < |m| && m[i] == d;
    }
    if Takes(cfg, d, dir) {
      var i :| 0 <= i < |cfg.devices| && cfg.devices[i] == d;
    }
  }

  // --- the frequency reached -------------------------------------------------------------------

  lemma {:induction false} Bounds(devs: seq<DeviceCfg>)
    requires devs != []
    ensures forall d :: d in devs ==> d.freqMin <= MaxOfMins(devs) && MinOfMaxes(devs) <= d.freqMax
    ensures exists d :: d in devs && d.freqMin == MaxOfMins(devs)
    ensures exists d :: d in devs && d.freqMax == MinOfMaxes(devs)
  {
    if |devs| == 1 {
      assert devs[0] in devs;
    } else {
      var init, last := devs[..|devs| - 1], devs[|devs| - 1];
      Bounds(init);
      assert devs == init + [last] && last in devs;
      var a :| a in init && a.freqMin == MaxOfMins(init);
      var b :| b in init && b.freqMax == MinOfMaxes(init);
      assert a in devs && b in devs;
    }
  }

  predicate CanReach(d: DeviceCfg, g: real) {
    d.freqMin <= g <= d.freqMax
  }

  /** Is `g` a frequency every device of the direction can tune to? */
  ghost predicate Common(cfg: Cfg, dir: Direction, g: real) {
    forall d :: Takes(cfg, d, dir) ==> CanReach(d, g)
  }

  /** A tune ends on the frequency nearest to the one asked for that every device can reach, and where there is none
      on the least upper limit. */
  lemma {:induction false} TunesToTheNearest(cfg: Cfg, w: World, s: SimLo, dir: Direction, f: real, at: bool, ahead: set<string>, g: real)
    ensures var c := TuneResult(cfg, w, s, dir, f, at, ahead).center;
            && Fc(cfg, SimTune(cfg, w, s, dir, f, at, ahead), dir) == c
            && (Common(cfg, dir, g) ==> Common(cfg, dir, c) && (g <= c <= f || f <= c <= g))
            && (!Common(cfg, dir, c) ==> (exists d :: Takes(cfg, d, dir) && c == d.freqMax) && forall d :: Takes(cfg, d, dir) ==> c <= d.freqMax)
  {
    hide WithChannels, BandCrossed, PhysicallyTimed, DrawsOf, TuneCount, Channels;
    var devs := WithChannels(cfg.devices, dir);
    forall d ensures d in devs <==> Takes(cfg, d, dir) { TakesExactly(cfg, d, dir); }
    hide Takes;
    if devs != [] {
      ReachesTheNearest(devs, f, g);
    }
  }

  lemma ReachesTheNearest(devs: seq<DeviceCfg>, f: real, g: real)
    requires devs != []
    ensures var c := ClampFreq(devs, f);
            && ((forall d :: d in devs ==> CanReach(d, g)) ==> (forall d :: d in devs ==> CanReach(d, c)) && (g <= c <= f || f <= c <= g))
            && ((exists d :: d in devs && !CanReach(d, c)) ==> (exists d :: d in devs && c == d.freqMax) && forall d :: d in devs ==> c <= d.freqMax)
  {
    Bounds(devs);
    var a :| a in devs && a.freqMin == MaxOfMins(devs);
    var b :| b in devs && b.freqMax == MinOfMaxes(devs);
    hide MaxOfMins, MinOfMaxes;
    if forall d :: d in devs ==> CanReach(d, g) {
      assert CanReach(a, g) && CanReach(b, g);
    }
  }

  // --- what the tune reports -------------------------------------------------------------------

  /** A tune counts as timed when some device takes part and each ran timed: a time was given, its command time is far
      enough ahead, and it can. */
  lemma {:induction false} TimedExactly(cfg: Cfg, w: World, s: SimLo, dir: Direction, f: real, at: bool, ahead: set<string>)
    ensures TuneResult(cfg, w, s, dir, f, at, ahead).timed
            <==> at && !w.pervices && (exists d :: Takes(cfg, d, dir))
                 && forall d :: Takes(cfg, d, dir) ==> d.name in ahead && d.caps.timedTune
  {
    hide WithChannels, BandCrossed, ClampFreq, Channels;
    var devs := WithChannels(cfg.devices, dir);
    forall d ensures d in devs <==> Takes(cfg, d, dir) { TakesExactly(cfg, d, dir); }
    hide Takes;
    if devs != [] { assert devs[0] in devs; }
    forall d | d in devs ensures exists i :: 0 <= i < |devs| && devs[i] == d {
    }
  }

  predicate Between(edge: real, f: real, g: real) {
    f < edge <= g || g < edge <= f
  }

  /** It crosses a band when an edge of some device lies between the frequencies, up or down. */
  lemma {:induction false} BandExactly(cfg: Cfg, w: World, s: SimLo, dir: Direction, f: real, at: bool, ahead: set<string>)
    ensures var r := TuneResult(cfg, w, s, dir, f, at, ahead);
            r.bandChange <==> exists d, edge :: Takes(cfg, d, dir) && edge in d.caps.bandEdges && Between(edge, Fc(cfg, s, dir), r.center)
  {
    hide WithChannels, ClampFreq, PhysicallyTimed, Channels, Fc;
    var devs := WithChannels(cfg.devices, dir);
    forall d ensures d in devs <==> Takes(cfg, d, dir) { TakesExactly(cfg, d, dir); }
    hide Takes;
    CrossedExactly(devs, Fc(cfg, s, dir), ClampFreq(devs, f));
  }

  lemma CrossedExactly(devs: seq<DeviceCfg>, f: real, g: real)
    ensures BandCrossed(devs, f, g) <==> exists d, edge :: d in devs && edge in d.caps.bandEdges && Between(edge, f, g)
  {
    if BandCrossed(devs, f, g) {
      var i, j :| 0 <= i < |devs| && 0 <= j < |devs[i].caps.bandEdges| && (f < devs[i].caps.bandEdges[j]) != (g < devs[i].caps.bandEdges[j]);
      assert devs[i] in devs && devs[i].caps.bandEdges[j] in devs[i].caps.bandEdges && Between(devs[i].caps.bandEdges[j], f, g);
    }
    if d, edge :| d in devs && edge in d.caps.bandEdges && Between(edge, f, g) {
      var i :| 0 <= i < |devs| && devs[i] == d;
      var j :| 0 <= j < |d.caps.bandEdges| && d.caps.bandEdges[j] == edge;
      assert (f < devs[i].caps.bandEdges[j]) != (g < devs[i].caps.bandEdges[j]);
    }
  }

  // --- what it draws ---------------------------------------------------------------------------

  /** Every device of the direction draws once more, at the frequency reached and as one common draw, in the class it
      has there; everything else is as before. */
  lemma {:induction false} TuneRedraws(cfg: Cfg, w: World, s: SimLo, dir: Direction, f: real, at: bool, ahead: set<string>, d: DeviceCfg)
    requires UniqueNames(cfg.devices) && Takes(cfg, d, dir)
    ensures var s', c, k := SimTune(cfg, w, s, dir, f, at, ahead), TuneResult(cfg, w, s, dir, f, at, ahead).center, (d.name, dir);
            && k in s'.drawn && s'.drawn[k].f == c && s'.drawn[k].tunes == TuneCount(s, dir) + 1 == TuneCount(s', dir)
            && s'.drawn[k].count == DrawCount(s, k) + 1
            && s'.drawn[k].cls == PhysicalClass(cfg, s, d, dir, c, at && d.name in ahead && d.caps.timedTune && !w.pervices)
  {
    hide WithChannels, BandCrossed, ClampFreq, PhysicalClass, UniqueNames, Channels, DrawsOf;
    TakesExactly(cfg, d, dir);
    var devs := WithChannels(cfg.devices, dir);
    var i :| 0 <= i < |devs| && devs[i] == d;
    WithChannelsUnique(cfg.devices, dir);
    DrawOfDevice(cfg, w, s, dir, ClampFreq(devs, f), TuneCount(s, dir) + 1, at, ahead, devs, i);
  }

  /** A simulator just constructed has drawn every device once, untimed, at the configured frequency. */
  lemma {:induction false} FirstDrawIs(cfg: Cfg, w: World, dir: Direction, d: DeviceCfg)
    requires UniqueNames(cfg.devices) && Takes(cfg, d, dir)
    ensures var s, k := Constructed(cfg, w), (d.name, dir);
            && k in s.drawn && s.drawn[k] == Draw(PhysicalClass(cfg, Unprogrammed, d, dir, cfg.centerFreq, false), cfg.centerFreq, 0, 1)
  {
    hide WithChannels, PhysicalClass, UniqueNames, Channels, DrawsOf;
    TakesExactly(cfg, d, dir);
    var devs := WithChannels(cfg.devices, dir);
    var i :| 0 <= i < |devs| && devs[i] == d;
    WithChannelsUnique(cfg.devices, dir);
    DrawOfDevice(cfg, w, Unprogrammed, dir, cfg.centerFreq, 0, false, {}, devs, i);
  }

  lemma {:induction false} TuneLeavesOthers(cfg: Cfg, w: World, s: SimLo, dir: Direction, f: real, at: bool, ahead: set<string>, k: LoKey)
    requires k.1 != dir || forall d :: Takes(cfg, d, dir) ==> d.name != k.0
    ensures var s' := SimTune(cfg, w, s, dir, f, at, ahead);
            && (k in s'.drawn <==> k in s.drawn) && (k in s.drawn ==> s'.drawn[k] == s.drawn[k])
            && s'.src == s.src && s'.exp == s.exp
            && forall e :: e != dir ==> Fc(cfg, s', e) == Fc(cfg, s, e) && TuneCount(s', e) == TuneCount(s, e)
  {
    hide WithChannels, BandCrossed, ClampFreq, PhysicalClass, Channels, DrawsOf;
    var devs := WithChannels(cfg.devices, dir);
    forall d ensures d in devs <==> Takes(cfg, d, dir) { TakesExactly(cfg, d, dir); }
    hide Takes;
    NotDrawn(cfg, w, s, dir, ClampFreq(devs, f), TuneCount(s, dir) + 1, at, ahead, devs, k);
  }

  // --- programming the LOs ---------------------------------------------------------------------

  /** A channel of a device that is there. */
  ghost predicate HasChannel(cfg: Cfg, dir: Direction, ref: ChannelRef) {
    exists d :: d in cfg.devices && d.name == ref.device && ref.channel in Channels(d, dir)
  }

  lemma DevicesAreThere(cfg: Cfg, dir: Direction, ref: ChannelRef)
    ensures Configured(cfg, dir, ref) <==> HasChannel(cfg, dir, ref)
    ensures CanImport(cfg, ref.device) <==> exists d :: d in cfg.devices && d.name == ref.device && d.caps.canImport
    ensures CanExport(cfg, ref.device) <==> exists d :: d in cfg.devices && d.name == ref.device && d.caps.canExport
  {
    hide Channels;
    assert forall i :: 0 <= i < |cfg.devices| ==> cfg.devices[i] in cfg.devices;
    assert forall d :: d in cfg.devices ==> exists i :: 0 <= i < |cfg.devices| && cfg.devices[i] == d;
  }

  /** A source is set exactly on a configured channel, to a known source, and to one from elsewhere only on a device that
      can import. */
  lemma {:induction false} SourceHookExactly(cfg: Cfg, w: World, s: Sys, dir: Direction, ref: ChannelRef, src: LoSource)
    ensures var op := LoSourceOp(dir, ref, src);
            var done := HasChannel(cfg, dir, ref) && src != FromUnknown && (src != FromInternal ==> exists d :: d in cfg.devices && d.name == ref.device && d.caps.canImport);
            && (BaseOp(cfg, w, s, op).hook == if done then Done else Refused)
            && SimAfter(cfg, w, s, op) == if done && s.b.open then s.sim.(src := s.sim.src[(ref.device, dir) := src]) else s.sim
  {
    DevicesAreThere(cfg, dir, ref);
    hide Configured, CanImport, HasChannel;
  }

  /** An export is switched exactly on a configured channel, and on only where the device can export. */
  lemma {:induction false} ExportHookExactly(cfg: Cfg, w: World, s: Sys, dir: Direction, ref: ChannelRef, on: bool)
    ensures var op := LoExportOp(dir, ref, on);
            var done := HasChannel(cfg, dir, ref) && (on ==> exists d :: d in cfg.devices && d.name == ref.device && d.caps.canExport);
            && (BaseOp(cfg, w, s, op).hook == if done then Done else Refused)
            && SimAfter(cfg, w, s, op) == if done && s.b.open then s.sim.(exp := s.sim.exp[(ref.device, dir) := on]) else s.sim
  {
    DevicesAreThere(cfg, dir, ref);
    hide Configured, CanExport, HasChannel;
  }

  lemma {:induction false} NotDrawn(cfg: Cfg, w: World, s: SimLo, dir: Direction, center: real, n: nat, at: bool, ahead: set<string>, devs: seq<DeviceCfg>, k: LoKey)
    requires k.1 != dir || forall d :: d in devs ==> d.name != k.0
    ensures k !in DrawsOf(cfg, w, s, dir, center, n, at, ahead, devs)
  {
    hide PhysicalClass, PhysicallyTimed, DrawCount;
    if devs != [] && k.1 == dir {
      assert devs[|devs| - 1] in devs;
      NotDrawn(cfg, w, s, dir, center, n, at, ahead, devs[..|devs| - 1], k);
    }
  }
}
