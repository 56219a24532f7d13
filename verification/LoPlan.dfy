/** LO sharing: who exports, who imports, and the phase class a tune leaves behind
    (`resolve_lo_plan`, `lo_share_members` of active_devices.py, `phase_after_tune_at`,
    `lo_share_floor_crossed`, `_share_live` of active_backend.py). */
module LoPlans {
  import opened Results

  datatype Direction = Rx | Tx

  datatype LoSource = FromInternal | FromExternal | FromCompanion | FromUnknown

  datatype ShareKind = NoShare | IntraDevice | StarShare | TwinShare | ExternalShare | OtherShare

  datatype Plan = NoPlan | Star | TwinRx | ExternalLo | OtherPlan

  /** The capability fields the phase behaviour depends on. */
  datatype Caps = Caps(
    share: ShareKind,
    canExport: bool,
    canImport: bool,
    shareMinHz: real,
    external180: bool,
    deterministic: bool,
    timedTune: bool,
    repeatable: bool,
    bandEdges: seq<real>,
    integerDelay: bool)

  datatype DeviceCfg = DeviceCfg(
    name: string,
    family: string,
    familyShare: ShareKind,
    caps: Caps,
    freqMin: real,
    freqMax: real,
    loSource: LoSource,
    loExport: bool,
    rxChannels: seq<int>,
    txChannels: seq<int>)

  datatype Cfg = Cfg(
    devices: seq<DeviceCfg>,
    plan: Option<Plan>,          // None: auto
    loMaster: string,
    sampleRate: real,
    centerFreq: real,
    loOffset: real,
    syncMethodNone: bool)

  ghost predicate UniqueNames(devs: seq<DeviceCfg>) {
    forall i, j :: 0 <= i < j < |devs| ==> devs[i].name != devs[j].name
  }

  function Channels(d: DeviceCfg, dir: Direction): seq<int> {
    if dir.Rx? then d.rxChannels else d.txChannels
  }

  /** The plan; `auto` infers one from the devices. */
  function ResolvePlan(cfg: Cfg): Plan {
    if cfg.plan.Some? then cfg.plan.value
    else if exists i :: 0 <= i < |cfg.devices| && cfg.devices[i].family == "x310_twinrx"
                        && (cfg.devices[i].loSource.FromCompanion? || cfg.devices[i].loSource.FromExternal?) then TwinRx
    else if (exists i :: 0 <= i < |cfg.devices| && cfg.devices[i].loExport && cfg.devices[i].familyShare.StarShare?)
         && (exists i :: 0 <= i < |cfg.devices| && cfg.devices[i].loSource.FromExternal? && cfg.devices[i].familyShare.StarShare?) then Star
    else if exists i :: 0 <= i < |cfg.devices| && cfg.devices[i].family == "n310" && cfg.devices[i].loSource.FromExternal? then ExternalLo
    else NoPlan
  }

  // --- roles -----------------------------------------------------------------------------------

  predicate Eligible(plan: Plan, d: DeviceCfg) {
    (plan.Star? && d.caps.share.StarShare?) || (plan.TwinRx? && d.caps.share.TwinShare?)
  }

  predicate Exporter(cfg: Cfg, plan: Plan, d: DeviceCfg) {
    Eligible(plan, d) && d.caps.canExport && (d.loExport || (cfg.loMaster != "" && d.name == cfg.loMaster))
  }

  predicate Importer(plan: Plan, d: DeviceCfg) {
    Eligible(plan, d) && (d.loSource.FromExternal? || (plan.TwinRx? && d.loSource.FromCompanion?))
  }

  predicate AnyExporter(cfg: Cfg, plan: Plan) {
    exists i :: 0 <= i < |cfg.devices| && Exporter(cfg, plan, cfg.devices[i])
  }

  /** Really runs from the shared LO: companions always, the others only when someone exports. */
  predicate Shared(cfg: Cfg, plan: Plan, d: DeviceCfg) {
    && Eligible(plan, d)
    && ((plan.TwinRx? && d.loSource.FromCompanion?)
        || (AnyExporter(cfg, plan) && (Exporter(cfg, plan, d) || Importer(plan, d))))
  }

  datatype Role = IsEligible | IsExporter | IsImporter | IsShared | IsOutside

  /** The role lists, by device name. */
  datatype Roles = Roles(eligible: seq<string>, exporters: seq<string>, importers: seq<string>, shared: seq<string>, outside: seq<string>)

  predicate Has(cfg: Cfg, plan: Plan, role: Role, d: DeviceCfg) {
    match role
    case IsEligible => Eligible(plan, d)
    case IsExporter => Exporter(cfg, plan, d)
    case IsImporter => Importer(plan, d)
    case IsShared => Shared(cfg, plan, d)
    case IsOutside => Eligible(plan, d) && !Exporter(cfg, plan, d) && !Importer(plan, d)
  }

  /** The names of the devices with a role, in configuration order. */
  function Pick(cfg: Cfg, plan: Plan, role: Role, devs: seq<DeviceCfg>): seq<string> {
    if devs == [] then []
    else
      var d := devs[|devs| - 1];
      Pick(cfg, plan, role, devs[..|devs| - 1]) + if Has(cfg, plan, role, d) then [d.name] else []
  }

  lemma {:induction false} PickNames(cfg: Cfg, plan: Plan, role: Role, devs: seq<DeviceCfg>, x: string)
    ensures x in Pick(cfg, plan, role, devs) <==> exists i :: 0 <= i < |devs| && devs[i].name == x && Has(cfg, plan, role, devs[i])
  {
    hide Has;
    if devs != [] {
      var init := devs[..|devs| - 1];
      PickNames(cfg, plan, role, init, x);
      if x in Pick(cfg, plan, role, init) {
        var i :| 0 <= i < |init| && init[i].name == x && Has(cfg, plan, role, init[i]);
        assert devs[i].name == x && Has(cfg, plan, role, devs[i]);
      }
      if i :| 0 <= i < |devs| && devs[i].name == x && Has(cfg, plan, role, devs[i]) {
        assert i < |init| ==> init[i] == devs[i];
      }
    }
  }

  lemma PickUnique(cfg: Cfg, plan: Plan, role: Role, i: nat)
    requires UniqueNames(cfg.devices) && i < |cfg.devices|
    ensures cfg.devices[i].name in Pick(cfg, plan, role, cfg.devices) <==> Has(cfg, plan, role, cfg.devices[i])
  {
    hide Has;
    PickNames(cfg, plan, role, cfg.devices, cfg.devices[i].name);
  }

  lemma ExportersExist(cfg: Cfg, plan: Plan)
    ensures Pick(cfg, plan, IsExporter, cfg.devices) != [] <==> AnyExporter(cfg, plan)
  {
    var names := Pick(cfg, plan, IsExporter, cfg.devices);
    if names != [] {
      PickNames(cfg, plan, IsExporter, cfg.devices, names[0]);
    }
    if AnyExporter(cfg, plan) {
      var i :| 0 <= i < |cfg.devices| && Exporter(cfg, plan, cfg.devices[i]);
      PickNames(cfg, plan, IsExporter, cfg.devices, cfg.devices[i].name);
    }
  }

  lemma PickStart(cfg: Cfg, plan: Plan, role: Role, devs: seq<DeviceCfg>)
    ensures Pick(cfg, plan, role, devs[..0]) == []
  {
  }

  lemma PickStep(cfg: Cfg, plan: Plan, role: Role, devs: seq<DeviceCfg>, i: nat)
    requires i < |devs|
    ensures Pick(cfg, plan, role, devs[..i + 1])
            == if Has(cfg, plan, role, devs[i]) then Pick(cfg, plan, role, devs[..i]) + [devs[i].name] else Pick(cfg, plan, role, devs[..i])
  {
    hide Has;
    assert devs[..i + 1][..i] == devs[..i];
  }

  lemma RolesAre(cfg: Cfg, plan: Plan, d: DeviceCfg)
    ensures Has(cfg, plan, IsEligible, d) <==> Eligible(plan, d)
    ensures Has(cfg, plan, IsExporter, d) <==> Exporter(cfg, plan, d)
    ensures Has(cfg, plan, IsImporter, d) <==> Importer(plan, d)
    ensures Has(cfg, plan, IsOutside, d) <==> Eligible(plan, d) && !Exporter(cfg, plan, d) && !Importer(plan, d)
    ensures Exporter(cfg, plan, d) || Importer(plan, d) ==> Eligible(plan, d)
  {
  }

  /** The second pass decides by name what `Shared` says. */
  lemma SharedByNames(cfg: Cfg, plan: Plan, r: Roles, i: nat)
    requires UniqueNames(cfg.devices) && i < |cfg.devices|
    requires r.eligible == Pick(cfg, plan, IsEligible, cfg.devices)
    requires r.exporters == Pick(cfg, plan, IsExporter, cfg.devices)
    requires r.importers == Pick(cfg, plan, IsImporter, cfg.devices)
    ensures var d := cfg.devices[i];
            Has(cfg, plan, IsShared, d)
            <==> d.name in r.eligible && ((plan.TwinRx? && d.loSource.FromCompanion?)
                                          || (r.exporters != [] && (d.name in r.exporters || d.name in r.importers)))
  {
    hide Pick, Exporter, Importer, Eligible, AnyExporter, UniqueNames;
    ExportersExist(cfg, plan);
    PickUnique(cfg, plan, IsEligible, i);
    PickUnique(cfg, plan, IsExporter, i);
    PickUnique(cfg, plan, IsImporter, i);
  }

  /** The two passes over the devices give each role list in configuration order. */
  method LoShareMembers(cfg: Cfg, plan: Plan) returns (r: Roles)
    requires UniqueNames(cfg.devices)
    ensures r.eligible == Pick(cfg, plan, IsEligible, cfg.devices)
    ensures r.exporters == Pick(cfg, plan, IsExporter, cfg.devices)
    ensures r.importers == Pick(cfg, plan, IsImporter, cfg.devices)
    ensures r.shared == Pick(cfg, plan, IsShared, cfg.devices)
    ensures r.outside == Pick(cfg, plan, IsOutside, cfg.devices)
  {
    hide *;
    r := FirstPass(cfg, plan);
    var shared := SharedPass(cfg, plan, r);
    r := r.(shared := shared);
  }

  method FirstPass(cfg: Cfg, plan: Plan) returns (r: Roles)
    ensures r.eligible == Pick(cfg, plan, IsEligible, cfg.devices)
    ensures r.exporters == Pick(cfg, plan, IsExporter, cfg.devices)
    ensures r.importers == Pick(cfg, plan, IsImporter, cfg.devices)
    ensures r.outside == Pick(cfg, plan, IsOutside, cfg.devices)
    ensures r.shared == []
  {
    hide *;
    var devs := cfg.devices;
    r := Roles([], [], [], [], []);
    forall role ensures Pick(cfg, plan, role, devs[..0]) == [] { PickStart(cfg, plan, role, devs); }
    for i := 0 to |devs|
      invariant r.eligible == Pick(cfg, plan, IsEligible, devs[..i])
      invariant r.exporters == Pick(cfg, plan, IsExporter, devs[..i])
      invariant r.importers == Pick(cfg, plan, IsImporter, devs[..i])
      invariant r.outside == Pick(cfg, plan, IsOutside, devs[..i])
      invariant r.shared == []
    {
      var d := devs[i];
      PickStep(cfg, plan, IsEligible, devs, i);
      PickStep(cfg, plan, IsExporter, devs, i);
      PickStep(cfg, plan, IsImporter, devs, i);
      PickStep(cfg, plan, IsOutside, devs, i);
      RolesAre(cfg, plan, d);
      if Eligible(plan, d) {
        var exporter, importer := Exporter(cfg, plan, d), Importer(plan, d);
        r := r.(eligible := r.eligible + [d.name]);
        if exporter { r := r.(exporters := r.exporters + [d.name]); }
        if importer { r := r.(importers := r.importers + [d.name]); }
        if !exporter && !importer { r := r.(outside := r.outside + [d.name]); }
      }
    }
    assert devs[..|devs|] == devs;
  }

  method SharedPass(cfg: Cfg, plan: Plan, r: Roles) returns (shared: seq<string>)
    requires UniqueNames(cfg.devices)
    requires r.eligible == Pick(cfg, plan, IsEligible, cfg.devices)
    requires r.exporters == Pick(cfg, plan, IsExporter, cfg.devices)
    requires r.importers == Pick(cfg, plan, IsImporter, cfg.devices)
    ensures shared == Pick(cfg, plan, IsShared, cfg.devices)
  {
    hide *;
    var devs := cfg.devices;
    shared := [];
    PickStart(cfg, plan, IsShared, devs);
    for i := 0 to |devs|
      invariant shared == Pick(cfg, plan, IsShared, devs[..i])
    {
      var d := devs[i];
      PickStep(cfg, plan, IsShared, devs, i);
      SharedByNames(cfg, plan, r, i);
      if d.name in r.eligible {
        if plan.TwinRx? && d.loSource.FromCompanion? {
          shared := shared + [d.name];
        } else if r.exporters != [] && (d.name in r.exporters || d.name in r.importers) {
          shared := shared + [d.name];
        }
      }
    }
    assert devs[..|devs|] == devs;
  }

  // --- phase classes ---------------------------------------------------------------------------

  datatype PhaseClass = RandomPhase | Ambiguous180 | Deterministic | Repeatable | SharedLo

  function Rank(c: PhaseClass): nat {
    match c
    case RandomPhase => 0
    case Ambiguous180 => 1
    case Deterministic => 2
    case Repeatable => 2
    case SharedLo => 3
  }

  predicate Stable(c: PhaseClass) {
    c.Deterministic? || c.Repeatable? || c.SharedLo?
  }

  /** The class `phase_after_tune_at` gives one device: `live` says its LO share is programmed. */
  function ReportedClass(cfg: Cfg, plan: Plan, d: DeviceCfg, f: real, timed: bool, live: bool): PhaseClass {
    if plan.Star? && Shared(cfg, plan, d) && live && f >= d.caps.shareMinHz then SharedLo
    else if plan.TwinRx? && Shared(cfg, plan, d) && live then SharedLo
    else if |cfg.devices| == 1 && d.caps.share.IntraDevice? then SharedLo
    else if plan.ExternalLo? && d.caps.external180 && d.loSource.FromExternal? && live then Ambiguous180
    else if d.caps.deterministic then Deterministic
    else if timed && d.caps.timedTune && d.caps.repeatable then Repeatable
    else RandomPhase
  }

  /** The running worst: the first class of least rank. */
  function Worst(cs: seq<PhaseClass>): (w: PhaseClass)
    requires |cs| > 0
    ensures w in cs
    ensures forall i :: 0 <= i < |cs| ==> Rank(w) <= Rank(cs[i])
  {
    if |cs| == 1 then cs[0]
    else
      var w := Worst(cs[..|cs| - 1]);
      if Rank(cs[|cs| - 1]) < Rank(w) then cs[|cs| - 1] else w
  }

  /** One random device makes a direction random, else one ambiguous device makes it ambiguous; it is stable when
      every device is, and shared when every device is. */
  lemma {:induction false} WorstExactly(cs: seq<PhaseClass>)
    requires |cs| > 0
    ensures Worst(cs) == RandomPhase <==> RandomPhase in cs
    ensures Worst(cs) == Ambiguous180 <==> Ambiguous180 in cs && RandomPhase !in cs
    ensures Worst(cs) == SharedLo <==> forall c :: c in cs ==> c == SharedLo
    ensures Stable(Worst(cs)) <==> forall c :: c in cs ==> Stable(c)
  {
    hide Worst;
    forall c | c in cs ensures Rank(Worst(cs)) <= Rank(c) {
      var i :| 0 <= i < |cs| && cs[i] == c;
    }
  }

  lemma WorstStep(cs: seq<PhaseClass>, i: nat)
    requires i < |cs|
    ensures i == 0 ==> Worst(cs[..i + 1]) == cs[0]
    ensures i > 0 ==> Worst(cs[..i + 1]) == if Rank(cs[i]) < Rank(Worst(cs[..i])) then cs[i] else Worst(cs[..i])
  {
    assert cs[..i + 1][..i] == cs[..i];
  }

  /** The devices with channels in a direction; all devices when none has. */
  function Members(cfg: Cfg, dir: Direction): (m: seq<DeviceCfg>)
    ensures cfg.devices != [] ==> m != []
    ensures forall i :: 0 <= i < |m| ==> m[i] in cfg.devices
  {
    var m := WithChannels(cfg.devices, dir);
    if m != [] then m else cfg.devices
  }

  function WithChannels(devs: seq<DeviceCfg>, dir: Direction): (m: seq<DeviceCfg>)
    ensures forall i :: 0 <= i < |m| ==> m[i] in devs && Channels(m[i], dir) != []
    ensures forall i :: 0 <= i < |devs| && Channels(devs[i], dir) != [] ==> devs[i] in m
  {
    if devs == [] then []
    else WithChannels(devs[..|devs| - 1], dir) + if Channels(devs[|devs| - 1], dir) != [] then [devs[|devs| - 1]] else []
  }

  type LoKey = (string, Direction)

  function LoSourceOf(src: map<LoKey, LoSource>, k: LoKey): LoSource {
    if k in src then src[k] else FromInternal
  }

  predicate ExportOn(exp: map<LoKey, bool>, k: LoKey) {
    k in exp && exp[k]
  }

  predicate AnyExportOn(cfg: Cfg, plan: Plan, exp: map<LoKey, bool>, dir: Direction) {
    exists i :: 0 <= i < |cfg.devices| && Exporter(cfg, plan, cfg.devices[i]) && ExportOn(exp, (cfg.devices[i].name, dir))
  }

  /** Is the LO share a device's role asks for really programmed? `src` and `exp` hold what was set
      through the API; a missing source never equals a configured one. */
  predicate ShareLive(cfg: Cfg, plan: Plan, d: DeviceCfg, dir: Direction, src: map<LoKey, LoSource>, exp: map<LoKey, bool>) {
    var k := (d.name, dir);
    if plan.Star? || plan.TwinRx? then
      if !Shared(cfg, plan, d) then false
      else if Exporter(cfg, plan, d) then ExportOn(exp, k)
      else if plan.TwinRx? && d.loSource.FromCompanion? then k in src && src[k] == FromCompanion
      else k in src && src[k] == d.loSource && AnyExportOn(cfg, plan, exp, dir)
    else if plan.ExternalLo? then k in src && src[k] == FromExternal
    else true
  }

  function ReportedClasses(cfg: Cfg, dir: Direction, f: real, timed: bool, src: map<LoKey, LoSource>, exp: map<LoKey, bool>): (cs: seq<PhaseClass>)
    ensures |cs| == |Members(cfg, dir)|
  {
    var plan, m := ResolvePlan(cfg), Members(cfg, dir);
    seq(|m|, i requires 0 <= i < |m| => ReportedClass(cfg, plan, m[i], f, timed, ShareLive(cfg, plan, m[i], dir, src, exp)))
  }

  /** The phase state after one tune: the worst class over the devices of the direction. */
  function PhaseAfterTune(cfg: Cfg, dir: Direction, f: real, timed: bool, src: map<LoKey, LoSource>, exp: map<LoKey, bool>): PhaseClass {
    if cfg.devices == [] then RandomPhase else Worst(ReportedClasses(cfg, dir, f, timed, src, exp))
  }

  /** The loop of `phase_after_tune_at` with its running worst. */
  method PhaseAfterTuneAt(cfg: Cfg, dir: Direction, f: real, timed: bool, src: map<LoKey, LoSource>, exp: map<LoKey, bool>)
    returns (worst: PhaseClass)
    ensures worst == PhaseAfterTune(cfg, dir, f, timed, src, exp)
  {
    if cfg.devices == [] {
      return RandomPhase;
    }
    var plan, m := ResolvePlan(cfg), Members(cfg, dir);
    ghost var cs := ReportedClasses(cfg, dir, f, timed, src, exp);
    worst := RandomPhase;
    hide ShareLive, ReportedClass, ResolvePlan, Members, Worst;
    for i := 0 to |m|
      invariant i > 0 ==> worst == Worst(cs[..i])
    {
      var cls := ReportedClass(cfg, plan, m[i], f, timed, ShareLive(cfg, plan, m[i], dir, src, exp));
      assert cls == cs[i];
      WorstStep(cs, i);
      if i == 0 || Rank(cls) < Rank(worst) {
        worst := cls;
      }
    }
    assert cs[..|m|] == cs;
  }

  /** Does a retune cross the LO-sharing floor of a sharing device with channels in the direction? */
  predicate FloorCrossed(cfg: Cfg, fOld: real, fNew: real, dir: Direction) {
    var plan := ResolvePlan(cfg);
    (plan.Star? || plan.TwinRx?) &&
    exists i :: 0 <= i < |cfg.devices|
                && Shared(cfg, plan, cfg.devices[i]) && Channels(cfg.devices[i], dir) != []
                && cfg.devices[i].caps.shareMinHz > 0.0
                && (fOld >= cfg.devices[i].caps.shareMinHz) != (fNew >= cfg.devices[i].caps.shareMinHz)
  }
}
