/** Grouping of devices into compound radios and the numbering of their channels (`device_groups` and
    `DeviceGroup.channel_map` of active_devices.py). */
module Groups {
  import opened Results
  import opened LoPlans
  import opened Backends

  /** What grouping reads of a device. `capable`: its family can share a compound radio. The widths are the
      MultiUSRP channels its board contributes per direction. */
  datatype Member = Member(
    name: string,
    family: string,
    group: string,
    capable: bool,
    rx: seq<int>,
    tx: seq<int>,
    rxWidth: nat,
    txWidth: nat)

  datatype Key = Named(text: string) | Auto(text: string) | Single(text: string)

  datatype Group = Group(name: string, family: string, devices: seq<Member>, compound: bool)

  function KeyOf(d: Member): Key {
    if d.capable then (if d.group != "" then Named(d.group) else Auto(d.family)) else Single(d.name)
  }

  // --- buckets ---------------------------------------------------------------------------------

  /** Keys in order of first occurrence. */
  function Keys(devs: seq<Member>): seq<Key>
    decreases |devs|
  {
    if devs == [] then []
    else
      var ks, k := Keys(devs[..|devs| - 1]), KeyOf(devs[|devs| - 1]);
      if k in ks then ks else ks + [k]
  }

  /** The devices of one key, in order. */
  function Having(devs: seq<Member>, k: Key): seq<Member>
    decreases |devs|
  {
    if devs == [] then []
    else
      var rest, d := Having(devs[..|devs| - 1], k), devs[|devs| - 1];
      if KeyOf(d) == k then rest + [d] else rest
  }

  lemma {:induction false} KeysAre(devs: seq<Member>)
    ensures forall i, j :: 0 <= i < j < |Keys(devs)| ==> Keys(devs)[i] != Keys(devs)[j]
    ensures forall d :: d in devs ==> KeyOf(d) in Keys(devs)
    ensures forall i :: 0 <= i < |Keys(devs)| ==> Having(devs, Keys(devs)[i]) != []
    decreases |devs|
  {
    hide KeyOf;
    if devs != [] {
      var init, d := devs[..|devs| - 1], devs[|devs| - 1];
      KeysAre(init);
      assert devs == init + [d];
      var ks := Keys(init);
      forall i | 0 <= i < |Keys(devs)| ensures Having(devs, Keys(devs)[i]) != [] {
        assert i < |ks| ==> Keys(devs)[i] == ks[i];
      }
    }
  }

  lemma {:induction false} HavingIs(devs: seq<Member>, k: Key, d: Member)
    ensures d in Having(devs, k) <==> d in devs && KeyOf(d) == k
    decreases |devs|
  {
    if devs != [] {
      var init := devs[..|devs| - 1];
      HavingIs(init, k, d);
      assert devs == init + [devs[|devs| - 1]];
    }
  }

  ghost predicate UniqueMembers(devs: seq<Member>) {
    forall i, j :: 0 <= i < j < |devs| ==> devs[i].name != devs[j].name
  }

  lemma {:induction false} HavingUnique(devs: seq<Member>, k: Key)
    requires UniqueMembers(devs)
    ensures UniqueMembers(Having(devs, k))
    decreases |devs|
  {
    if devs != [] {
      var init, d := devs[..|devs| - 1], devs[|devs| - 1];
      HavingUnique(init, k);
      var h := Having(init, k);
      forall i | 0 <= i < |h| ensures h[i].name != d.name {
        HavingIs(init, k, h[i]);
      }
    }
  }

  // --- names -----------------------------------------------------------------------------------

  function Digit(n: nat): char
    requires n < 10
  {
    "0123456789"[n]
  }

  function Decimal(n: nat): (s: string)
    ensures s != ""
  {
    if n < 10 then [Digit(n)] else Decimal(n / 10) + [Digit(n % 10)]
  }

  lemma {:induction false} DecimalInjective(m: nat, n: nat)
    requires Decimal(m) == Decimal(n)
    ensures m == n
  {
    var s, t := Decimal(m), Decimal(n);
    assert s[|s| - 1] == Digit(m % 10) && t[|t| - 1] == Digit(n % 10);
    if m >= 10 && n >= 10 {
      assert s[..|s| - 1] == Decimal(m / 10) && t[..|t| - 1] == Decimal(n / 10);
      DecimalInjective(m / 10, n / 10);
    }
  }

  function Suffixed(base: string, k: nat): string {
    base + "_" + Decimal(k)
  }

  lemma {:induction false} SuffixedInjective(base: string, j: nat, k: nat)
    requires Suffixed(base, j) == Suffixed(base, k)
    ensures j == k
  {
    var n := |base| + 1;
    assert Suffixed(base, j)[n..] == Decimal(j) && Suffixed(base, k)[n..] == Decimal(k);
    DecimalInjective(j, k);
  }

  /** Names in use that a later try could hit. */
  ghost function Ahead(used: set<string>, base: string, k: nat): set<string> {
    set u | u in used && Later(u, base, k)
  }

  ghost predicate Later(u: string, base: string, k: nat) {
    exists j :: j >= k && u == Suffixed(base, j)
  }

  lemma {:induction false} AheadShrinks(used: set<string>, base: string, k: nat)
    requires Suffixed(base, k) in used
    ensures |Ahead(used, base, k + 1)| < |Ahead(used, base, k)|
  {
    var a, b := Ahead(used, base, k + 1), Ahead(used, base, k);
    assert Suffixed(base, k) in b;
    assert Suffixed(base, k) !in a by {
      if Later(Suffixed(base, k), base, k + 1) {
        var j :| j >= k + 1 && Suffixed(base, k) == Suffixed(base, j);
        SuffixedInjective(base, k, j);
      }
    }
    assert a <= b - {Suffixed(base, k)} by {
      forall u | u in a ensures u in b {
        var j :| j >= k + 1 && u == Suffixed(base, j);
      }
    }
    SetsShrink(a, b, Suffixed(base, k));
  }

  lemma SetsShrink(a: set<string>, b: set<string>, x: string)
    requires x in b && a <= b - {x}
    ensures |a| < |b|
  {
    Subsets(a, b - {x});
  }

  lemma Subsets(a: set<string>, b: set<string>)
    requires a <= b
    ensures |a| <= |b|
    decreases a
  {
    if a != {} {
      var x :| x in a;
      Subsets(a - {x}, b - {x});
    }
  }

  /** The naming loop: the name itself if it is free, else the first free numbered one. It ends because no
      name is tried twice. */
  method FreshName(base: string, used: set<string>) returns (name: string)
    ensures name !in used
    ensures name == base || exists k :: k >= 2 && name == Suffixed(base, k)
    ensures base !in used ==> name == base
    ensures forall k :: k >= 2 && name == Suffixed(base, k) && name != base ==>
              base in used && forall j :: 2 <= j < k ==> Suffixed(base, j) in used
  {
    name := base;
    var k := 2;
    ghost var first := true;
    while name in used
      invariant k >= 2 && (first ==> k == 2 && name == base)
      invariant !first ==> k > 2 && name == Suffixed(base, k - 1) && base in used
      invariant forall j :: 2 <= j < k - 1 ==> Suffixed(base, j) in used
      decreases if first then |Ahead(used, base, 2)| + 1 else |Ahead(used, base, k - 1)|
    {
      if !first {
        AheadShrinks(used, base, k - 1);
      }
      name := Suffixed(base, k);
      k := k + 1;
      first := false;
    }
    forall m | m >= 2 && name == Suffixed(base, m) && name != base
      ensures base in used && forall j :: 2 <= j < m ==> Suffixed(base, j) in used
    {
      SuffixedInjective(base, m, k - 1);
    }
  }

  // --- device_groups -----------------------------------------------------------------------------

  ghost predicate NamesDiffer(groups: seq<Group>) {
    forall i, j :: 0 <= i < j < |groups| ==> groups[i].name != groups[j].name
  }

  /** What the groups of a configuration are. */
  ghost predicate AreGroups(devs: seq<Member>, groups: seq<Group>, n: nat)
    requires n <= |Keys(devs)|
  {
    && |groups| == n
    && forall i :: 0 <= i < n ==>
         && groups[i].devices == Having(devs, Keys(devs)[i]) && groups[i].devices != []
         && groups[i].family == groups[i].devices[0].family
         && groups[i].compound == (|groups[i].devices| > 1)
         && (groups[i].name == Keys(devs)[i].text || exists k :: k >= 2 && groups[i].name == Suffixed(Keys(devs)[i].text, k))
  }

  /** A group bears its own name unless an earlier one does. */
  ghost predicate OwnNamesFirst(devs: seq<Member>, groups: seq<Group>)
    requires |groups| <= |Keys(devs)|
  {
    forall i :: 0 <= i < |groups| && Keys(devs)[i].text !in NamesOf(groups[..i]) ==> groups[i].name == Keys(devs)[i].text
  }

  ghost function NamesOf(groups: seq<Group>): set<string> {
    set g | g in groups :: g.name
  }

  method Buckets(devs: seq<Member>) returns (buckets: map<Key, seq<Member>>, order: seq<Key>)
    ensures order == Keys(devs) && forall k :: k in order ==> k in buckets && buckets[k] == Having(devs, k)
  {
    buckets, order := map[], [];
    var i := 0;
    while i < |devs|
      invariant i <= |devs| && order == Keys(devs[..i])
      invariant forall k :: k in buckets <==> k in order
      invariant forall k :: k in buckets ==> buckets[k] == Having(devs[..i], k)
    {
      var d := devs[i];
      var key := KeyOf(d);
      assert devs[..i + 1][..i] == devs[..i];
      if key !in buckets {
        NotYet(devs[..i], key);
        buckets := buckets[key := []];
        order := order + [key];
      }
      buckets := buckets[key := buckets[key] + [d]];
      i := i + 1;
    }
    assert devs[..|devs|] == devs;
  }

  lemma {:induction false} NotYet(devs: seq<Member>, k: Key)
    requires k !in Keys(devs)
    ensures Having(devs, k) == []
  {
    KeysAre(devs);
    var h := Having(devs, k);
    if h != [] {
      HavingIs(devs, k, h[0]);
    }
  }

  lemma NamesGrow(was: seq<Group>, g: Group)
    ensures NamesOf(was + [g]) == NamesOf(was) + {g.name}
  {
  }

  lemma FreshDiffers(was: seq<Group>, g: Group)
    requires NamesDiffer(was) && g.name !in NamesOf(was)
    ensures NamesDiffer(was + [g])
  {
    assert forall i :: 0 <= i < |was| ==> was[i] in was;
  }

  lemma OwnNameStep(devs: seq<Member>, was: seq<Group>, g: Group)
    requires |was| < |Keys(devs)| && OwnNamesFirst(devs, was)
    requires Keys(devs)[|was|].text !in NamesOf(was) ==> g.name == Keys(devs)[|was|].text
    ensures OwnNamesFirst(devs, was + [g])
  {
    hide Keys, NamesOf;
    forall i | 0 <= i <= |was| ensures (was + [g])[..i] == was[..i] {
    }
    assert was[..|was|] == was;
  }

  lemma GroupStep(devs: seq<Member>, was: seq<Group>, name: string, k: nat)
    requires |was| < |Keys(devs)| && AreGroups(devs, was, |was|)
    requires name == Keys(devs)[|was|].text || (k >= 2 && name == Suffixed(Keys(devs)[|was|].text, k))
    ensures var ds := Having(devs, Keys(devs)[|was|]);
            ds != [] && AreGroups(devs, was + [Group(name, ds[0].family, ds, |ds| > 1)], |was| + 1)
  {
    KeysAre(devs);
    hide Keys, Having, Suffixed;
  }

  /** Nothing is grouped yet. */
  lemma NoGroups(devs: seq<Member>)
    ensures AreGroups(devs, [], 0) && NamesDiffer([]) && OwnNamesFirst(devs, []) && NamesOf([]) == {}
  {
  }

  method DeviceGroups(devs: seq<Member>) returns (groups: seq<Group>)
    ensures AreGroups(devs, groups, |Keys(devs)|) && NamesDiffer(groups) && OwnNamesFirst(devs, groups)
  {
    hide *;
    var buckets, order := Buckets(devs);
    groups := [];
    var used: set<string> := {};
    NoGroups(devs);
    var i := 0;
    while i < |order|
      invariant i == |groups| <= |order| && AreGroups(devs, groups, i) && NamesDiffer(groups) && OwnNamesFirst(devs, groups)
      invariant used == NamesOf(groups)
    {
      var key := order[i];
      var ds := buckets[key];
      var name := FreshName(key.text, used);
      ghost var k := if name == key.text then 0 else var k :| k >= 2 && name == Suffixed(key.text, k); k;
      GroupStep(devs, groups, name, k);
      var g := Group(name, ds[0].family, ds, |ds| > 1);
      NamesGrow(groups, g);
      FreshDiffers(groups, g);
      OwnNameStep(devs, groups, g);
      used := used + {name};
      groups := groups + [g];
      i := i + 1;
    }
  }

  /** The groups partition the devices: each device is in exactly one group, and a group holds nothing else. */
  lemma {:induction false} GroupsPartition(devs: seq<Member>, groups: seq<Group>, d: Member)
    requires AreGroups(devs, groups, |Keys(devs)|)
    ensures (exists i :: 0 <= i < |groups| && d in groups[i].devices) <==> d in devs
    ensures forall i, j :: 0 <= i < j < |groups| && d in groups[i].devices ==> d !in groups[j].devices
  {
    KeysAre(devs);
    forall i | 0 <= i < |groups| ensures d in groups[i].devices <==> d in devs && KeyOf(d) == Keys(devs)[i] {
      HavingIs(devs, Keys(devs)[i], d);
    }
    hide Having, Keys, KeyOf;
    if d in devs {
      var i :| 0 <= i < |Keys(devs)| && Keys(devs)[i] == KeyOf(d);
      assert d in groups[i].devices;
    }
  }

  /** Two devices share a group exactly when both can share a compound radio and name the same group, or both name none
      and are of one family; a device that cannot is alone. */
  lemma {:induction false} SharedGroupExactly(devs: seq<Member>, groups: seq<Group>, d: Member, e: Member)
    requires AreGroups(devs, groups, |Keys(devs)|) && UniqueMembers(devs) && d in devs && e in devs && d != e
    ensures (exists i :: 0 <= i < |groups| && d in groups[i].devices && e in groups[i].devices)
            <==> d.capable && e.capable && d.group == e.group && (d.group == "" ==> d.family == e.family)
  {
    KeysAre(devs);
    forall i | 0 <= i < |groups|
      ensures d in groups[i].devices <==> KeyOf(d) == Keys(devs)[i]
      ensures e in groups[i].devices <==> KeyOf(e) == Keys(devs)[i]
    {
      HavingIs(devs, Keys(devs)[i], d);
      HavingIs(devs, Keys(devs)[i], e);
    }
    SameKeyExactly(devs, d, e);
    hide Having, Keys, KeyOf, UniqueMembers;
    if KeyOf(d) == KeyOf(e) {
      var i :| 0 <= i < |Keys(devs)| && Keys(devs)[i] == KeyOf(d);
      assert d in groups[i].devices && e in groups[i].devices;
    }
  }

  lemma SameKeyExactly(devs: seq<Member>, d: Member, e: Member)
    requires UniqueMembers(devs) && d in devs && e in devs && d != e
    ensures KeyOf(d) == KeyOf(e) <==> d.capable && e.capable && d.group == e.group && (d.group == "" ==> d.family == e.family)
  {
    var i :| 0 <= i < |devs| && devs[i] == d;
    var j :| 0 <= j < |devs| && devs[j] == e;
    assert d.name != e.name;
  }

  // --- channel numbers -----------------------------------------------------------------------------

  function ChannelsOf(d: Member, dir: Direction): seq<int> {
    if dir.Rx? then d.rx else d.tx
  }

  function Width(d: Member, dir: Direction): nat {
    if dir.Rx? then d.rxWidth else d.txWidth
  }

  /** `rx_refs` / `tx_refs`: the position of a reference is its global index. */
  function RefsOf(devs: seq<Member>, dir: Direction): seq<ChannelRef>
    decreases |devs|
  {
    if devs == [] then [] else RefsOf(devs[..|devs| - 1], dir) + DeviceRefs(devs[|devs| - 1], dir)
  }

  function DeviceRefs(d: Member, dir: Direction): (r: seq<ChannelRef>)
    ensures |r| == |ChannelsOf(d, dir)| && forall i :: 0 <= i < |r| ==> r[i] == ChannelRef(d.name, ChannelsOf(d, dir)[i])
  {
    var cs := ChannelsOf(d, dir);
    seq(|cs|, i requires 0 <= i < |cs| => ChannelRef(d.name, cs[i]))
  }

  function Offset(devs: seq<Member>, dir: Direction): nat
    decreases |devs|
  {
    if devs == [] then 0 else Offset(devs[..|devs| - 1], dir) + Width(devs[|devs| - 1], dir)
  }

  /** One line of a channel map: MultiUSRP channel and physical channel. */
  datatype Slot = Slot(channel: int, ref: ChannelRef)

  function DeviceSlots(d: Member, dir: Direction, offset: nat): (r: seq<Slot>)
    ensures |r| == |ChannelsOf(d, dir)|
    ensures forall i :: 0 <= i < |r| ==> r[i] == Slot(offset + ChannelsOf(d, dir)[i], ChannelRef(d.name, ChannelsOf(d, dir)[i]))
  {
    var cs := ChannelsOf(d, dir);
    seq(|cs|, i requires 0 <= i < |cs| => Slot(offset + cs[i], ChannelRef(d.name, cs[i])))
  }

  function Slots(devs: seq<Member>, dir: Direction): seq<Slot>
    decreases |devs|
  {
    if devs == [] then []
    else
      var init := devs[..|devs| - 1];
      Slots(init, dir) + DeviceSlots(devs[|devs| - 1], dir, Offset(init, dir))
  }

  predicate InRange(d: Member, dir: Direction) {
    forall i :: 0 <= i < |ChannelsOf(d, dir)| ==> 0 <= ChannelsOf(d, dir)[i] < Width(d, dir)
  }

  predicate AllInRange(devs: seq<Member>, dir: Direction) {
    forall i :: 0 <= i < |devs| ==> InRange(devs[i], dir)
  }

  /** The dictionary of global indices. */
  method GlobalIndex(refs: seq<ChannelRef>) returns (g: map<ChannelRef, nat>)
    ensures forall r :: r in g <==> r in refs
    ensures forall r :: r in g ==> g[r] < |refs| && refs[g[r]] == r
  {
    g := map[];
    var i := 0;
    while i < |refs|
      invariant i <= |refs|
      invariant forall r :: r in g <==> r in refs[..i]
      invariant forall r :: r in g ==> g[r] < i && refs[g[r]] == r
    {
      assert refs[..i + 1] == refs[..i] + [refs[i]];
      g := g[refs[i] := i];
      i := i + 1;
    }
    assert refs[..|refs|] == refs;
  }

  /** A line of the channel map as `channel_map` returns it. */
  datatype Entry = Entry(channel: int, index: nat, ref: ChannelRef)

  /** A channel map of the slots, with the index of each reference. */
  ghost predicate IsMap(out: seq<Entry>, slots: seq<Slot>, refs: seq<ChannelRef>) {
    && |out| == |slots|
    && forall i :: 0 <= i < |out| ==>
         && out[i].channel == slots[i].channel && out[i].ref == slots[i].ref
         && out[i].index < |refs| && refs[out[i].index] == out[i].ref
  }

  /** The channels of one device: an error at the first channel outside the board's channels. */
  method DeviceMap(d: Member, dir: Direction, offset: nat, g: map<ChannelRef, nat>, refs: seq<ChannelRef>) returns (r: Result<seq<Entry>>)
    requires forall x :: x in g ==> g[x] < |refs| && refs[g[x]] == x
    requires forall x :: x in DeviceRefs(d, dir) ==> x in g
    ensures r.Ok? <==> InRange(d, dir)
    ensures r.Ok? ==> IsMap(r.value, DeviceSlots(d, dir, offset), refs)
  {
    var out: seq<Entry> := [];
    var cs := ChannelsOf(d, dir);
    var i := 0;
    while i < |cs|
      invariant i <= |cs| && IsMap(out, DeviceSlots(d, dir, offset)[..i], refs)
      invariant forall j :: 0 <= j < i ==> 0 <= cs[j] < Width(d, dir)
    {
      if !(0 <= cs[i] < Width(d, dir)) {
        return Err(ConfigError);
      }
      var ref := ChannelRef(d.name, cs[i]);
      assert DeviceRefs(d, dir)[i] == ref;
      out := out + [Entry(offset + cs[i], g[ref], ref)];
      i := i + 1;
    }
    return Ok(out);
  }

  /** `channel_map` of a group whose devices belong to the configuration. */
  method ChannelMap(devs: seq<Member>, group: seq<Member>, dir: Direction) returns (r: Result<seq<Entry>>)
    requires forall i :: 0 <= i < |group| ==> group[i] in devs
    ensures r.Ok? <==> AllInRange(group, dir)
    ensures r.Ok? ==> IsMap(r.value, Slots(group, dir), RefsOf(devs, dir))
  {
    hide *;
    var refs := RefsOf(devs, dir);
    var g := GlobalIndex(refs);
    var out: seq<Entry> := [];
    var offset := 0;
    var p := 0;
    NoSlots(refs, dir);
    assert group[..0] == [];
    while p < |group|
      invariant p <= |group| && offset == Offset(group[..p], dir) && IsMap(out, Slots(group[..p], dir), refs)
      invariant AllInRange(group[..p], dir)
    {
      var d := group[p];
      RefsOfDevice(devs, d, dir);
      var part := DeviceMap(d, dir, offset, g, refs);
      RangeStep(group, dir, p);
      if part.Err? {
        return Err(ConfigError);
      }
      SlotsStep(group, dir, p);
      MapsConcat(out, part.value, Slots(group[..p], dir), DeviceSlots(d, dir, offset), refs);
      out := out + part.value;
      offset := offset + Width(d, dir);
      p := p + 1;
    }
    assert group[..|group|] == group;
    return Ok(out);
  }

  lemma NoSlots(refs: seq<ChannelRef>, dir: Direction)
    ensures Offset([], dir) == 0 && IsMap([], Slots([], dir), refs) && AllInRange([], dir)
  {
  }

  lemma RangeStep(group: seq<Member>, dir: Direction, p: nat)
    requires p < |group| && AllInRange(group[..p], dir)
    ensures AllInRange(group[..p + 1], dir) <==> InRange(group[p], dir)
    ensures !InRange(group[p], dir) ==> !AllInRange(group, dir)
  {
    hide InRange;
    assert group[..p + 1] == group[..p] + [group[p]];
    if AllInRange(group[..p + 1], dir) {
      assert group[..p + 1][p] == group[p];
    }
  }

  lemma SlotsStep(group: seq<Member>, dir: Direction, p: nat)
    requires p < |group|
    ensures Slots(group[..p + 1], dir) == Slots(group[..p], dir) + DeviceSlots(group[p], dir, Offset(group[..p], dir))
    ensures Offset(group[..p + 1], dir) == Offset(group[..p], dir) + Width(group[p], dir)
  {
    hide DeviceSlots;
    assert group[..p + 1][..p] == group[..p];
  }

  lemma MapsConcat(a: seq<Entry>, b: seq<Entry>, s: seq<Slot>, t: seq<Slot>, refs: seq<ChannelRef>)
    requires IsMap(a, s, refs) && IsMap(b, t, refs)
    ensures IsMap(a + b, s + t, refs)
  {
  }

  lemma {:induction false} RefsOfDevice(devs: seq<Member>, d: Member, dir: Direction)
    requires d in devs
    ensures forall x :: x in DeviceRefs(d, dir) ==> x in RefsOf(devs, dir)
    decreases |devs|
  {
    hide DeviceRefs;
    var init := devs[..|devs| - 1];
    if d in init {
      RefsOfDevice(init, d, dir);
    }
  }

  // --- the bijection -------------------------------------------------------------------------------

  ghost predicate NoRepeats(devs: seq<Member>, dir: Direction) {
    forall p, i, j :: 0 <= p < |devs| && 0 <= i < j < |ChannelsOf(devs[p], dir)| ==>
      ChannelsOf(devs[p], dir)[i] != ChannelsOf(devs[p], dir)[j]
  }

  ghost predicate Distinct(refs: seq<ChannelRef>) {
    forall i, j :: 0 <= i < j < |refs| ==> refs[i] != refs[j]
  }

  /** Every reference comes from a device and one of its channels. */
  lemma {:induction false} RefComesFrom(devs: seq<Member>, dir: Direction, i: nat)
    requires i < |RefsOf(devs, dir)|
    ensures exists d :: d in devs && d.name == RefsOf(devs, dir)[i].device && RefsOf(devs, dir)[i].channel in ChannelsOf(d, dir)
    decreases |devs|
  {
    var init, last := devs[..|devs| - 1], devs[|devs| - 1];
    var n := |RefsOf(init, dir)|;
    if i < n {
      RefComesFrom(init, dir, i);
      var d :| d in init && d.name == RefsOf(init, dir)[i].device && RefsOf(init, dir)[i].channel in ChannelsOf(d, dir);
      assert d in devs && RefsOf(devs, dir)[i] == RefsOf(init, dir)[i];
    } else {
      assert RefsOf(devs, dir)[i] == DeviceRefs(last, dir)[i - n];
      assert last in devs;
    }
  }

  lemma {:induction false} RefsDistinct(devs: seq<Member>, dir: Direction)
    requires UniqueMembers(devs) && NoRepeats(devs, dir)
    ensures Distinct(RefsOf(devs, dir))
    decreases |devs|
  {
    if devs != [] {
      var init, last := devs[..|devs| - 1], devs[|devs| - 1];
      assert NoRepeats(init, dir) && UniqueMembers(init);
      RefsDistinct(init, dir);
      var a, b, all := RefsOf(init, dir), DeviceRefs(last, dir), RefsOf(devs, dir);
      assert all == a + b;
      forall i, j | 0 <= i < |a| && 0 <= j < |b| ensures a[i] != b[j] {
        RefComesFrom(init, dir, i);
      }
      forall i, j | 0 <= i < j < |b| ensures b[i] != b[j] {
        assert ChannelsOf(devs[|devs| - 1], dir)[i] != ChannelsOf(devs[|devs| - 1], dir)[j];
      }
      hide *;
      JoinedDistinct(a, b);
    }
  }

  lemma JoinedDistinct(a: seq<ChannelRef>, b: seq<ChannelRef>)
    requires Distinct(a) && forall i, j :: 0 <= i < j < |b| ==> b[i] != b[j]
    requires forall i, j :: 0 <= i < |a| && 0 <= j < |b| ==> a[i] != b[j]
    ensures Distinct(a + b)
  {
  }

  /** Every slot names a device of the group and lies in that board's stretch of channels. */
  lemma {:induction false} SlotComesFrom(devs: seq<Member>, dir: Direction, j: nat)
    requires j < |Slots(devs, dir)| && AllInRange(devs, dir)
    ensures var s := Slots(devs, dir)[j];
            && 0 <= s.channel < Offset(devs, dir)
            && exists p :: 0 <= p < |devs| && devs[p].name == s.ref.device && s.channel == Offset(devs[..p], dir) + s.ref.channel
    decreases |devs|
  {
    hide DeviceSlots;
    var init, last := devs[..|devs| - 1], devs[|devs| - 1];
    var n := |Slots(init, dir)|;
    if j < n {
      SlotComesFrom(init, dir, j);
      var s := Slots(init, dir)[j];
      var p :| 0 <= p < |init| && init[p].name == s.ref.device && s.channel == Offset(init[..p], dir) + s.ref.channel;
      assert init[..p] == devs[..p] && devs[p] == init[p];
    } else {
      var s := DeviceSlots(last, dir, Offset(init, dir))[j - n];
      assert Slots(devs, dir)[j] == s;
      assert InRange(devs[|devs| - 1], dir);
      assert devs[..|devs| - 1] == init;
    }
  }

  /** What the boards before the p-th contribute in a direction. */
  ghost function WidthsBefore(devs: seq<Member>, p: nat, dir: Direction): nat
    requires p <= |devs|
  {
    if p == 0 then 0 else WidthsBefore(devs, p - 1, dir) + if dir == Rx then devs[p - 1].rxWidth else devs[p - 1].txWidth
  }

  lemma {:induction false} OffsetIs(devs: seq<Member>, p: nat, dir: Direction)
    requires p <= |devs|
    ensures Offset(devs[..p], dir) == WidthsBefore(devs, p, dir)
  {
    if p > 0 {
      OffsetIs(devs, p - 1, dir);
      assert devs[..p][..p - 1] == devs[..p - 1];
    }
  }

  /** Each channel of each board has the MultiUSRP channel behind all channels of the boards before it, by direction. */
  lemma {:induction false} NumberedByWidths(devs: seq<Member>, p: nat, c: int, dir: Direction)
    requires p < |devs| && c in (if dir == Rx then devs[p].rx else devs[p].tx)
    ensures Slot(WidthsBefore(devs, p, dir) + c, ChannelRef(devs[p].name, c)) in Slots(devs, dir)
    decreases |devs|
  {
    hide DeviceSlots, WidthsBefore, Offset;
    var init, last := devs[..|devs| - 1], devs[|devs| - 1];
    OffsetIs(devs, p, dir);
    if p == |devs| - 1 {
      var i :| 0 <= i < |ChannelsOf(last, dir)| && ChannelsOf(last, dir)[i] == c;
      assert DeviceSlots(last, dir, Offset(init, dir))[i] in DeviceSlots(last, dir, Offset(init, dir));
    } else {
      OffsetIs(init, p, dir);
      assert init[..p] == devs[..p];
      NumberedByWidths(init, p, c, dir);
    }
  }

  ghost predicate Below(cs: seq<int>, width: nat) {
    forall i :: 0 <= i < |cs| ==> 0 <= cs[i] < width
  }

  /** Channels are in range exactly when each board is wide enough for its own. */
  lemma {:induction false} RangeExactly(devs: seq<Member>)
    ensures AllInRange(devs, Rx) <==> forall d :: d in devs ==> Below(d.rx, d.rxWidth)
    ensures AllInRange(devs, Tx) <==> forall d :: d in devs ==> Below(d.tx, d.txWidth)
  {
    forall d ensures InRange(d, Rx) <==> Below(d.rx, d.rxWidth) {
      assert ChannelsOf(d, Rx) == d.rx;
    }
    forall d ensures InRange(d, Tx) <==> Below(d.tx, d.txWidth) {
      assert ChannelsOf(d, Tx) == d.tx;
    }
    hide InRange, Below;
  }

  /** No MultiUSRP channel of a group occurs twice. */
  lemma {:induction false} SlotChannelsDistinct(devs: seq<Member>, dir: Direction, i: nat, j: nat)
    requires NoRepeats(devs, dir) && AllInRange(devs, dir) && i < j < |Slots(devs, dir)|
    ensures Slots(devs, dir)[i].channel != Slots(devs, dir)[j].channel
    decreases |devs|
  {
    hide DeviceSlots;
    var init, last := devs[..|devs| - 1], devs[|devs| - 1];
    var n := |Slots(init, dir)|;
    var b := DeviceSlots(last, dir, Offset(init, dir));
    if j < n {
      assert NoRepeats(init, dir);
      SlotChannelsDistinct(init, dir, i, j);
    } else {
      assert Slots(devs, dir)[j] == b[j - n];
      assert InRange(devs[|devs| - 1], dir);
      if i < n {
        SlotComesFrom(init, dir, i);
      } else {
        assert Slots(devs, dir)[i] == b[i - n];
        var p := |devs| - 1;
        assert ChannelsOf(devs[p], dir)[i - n] != ChannelsOf(devs[p], dir)[j - n];
      }
    }
  }

  /** In one group a physical channel determines its slot. */
  lemma {:induction false} SlotRefsDistinct(devs: seq<Member>, dir: Direction, i: nat, j: nat)
    requires UniqueMembers(devs) && NoRepeats(devs, dir) && AllInRange(devs, dir) && i < j < |Slots(devs, dir)|
    ensures Slots(devs, dir)[i].ref != Slots(devs, dir)[j].ref
  {
    SlotChannelsDistinct(devs, dir, i, j);
    SlotComesFrom(devs, dir, i);
    SlotComesFrom(devs, dir, j);
    hide Slots, Offset;
    var s, t := Slots(devs, dir)[i], Slots(devs, dir)[j];
    var p :| 0 <= p < |devs| && devs[p].name == s.ref.device && s.channel == Offset(devs[..p], dir) + s.ref.channel;
    var q :| 0 <= q < |devs| && devs[q].name == t.ref.device && t.channel == Offset(devs[..q], dir) + t.ref.channel;
    assert s.ref == t.ref ==> p == q;
  }

  lemma {:induction false} SlotExists(devs: seq<Member>, dir: Direction, d: Member, c: int)
    requires d in devs && c in ChannelsOf(d, dir)
    ensures exists j :: 0 <= j < |Slots(devs, dir)| && Slots(devs, dir)[j].ref == ChannelRef(d.name, c)
    decreases |devs|
  {
    hide DeviceSlots;
    var init, last := devs[..|devs| - 1], devs[|devs| - 1];
    var n := |Slots(init, dir)|;
    if d in init {
      SlotExists(init, dir, d, c);
      var j :| 0 <= j < n && Slots(init, dir)[j].ref == ChannelRef(d.name, c);
      assert Slots(devs, dir)[j] == Slots(init, dir)[j];
    } else {
      var i :| 0 <= i < |ChannelsOf(d, dir)| && ChannelsOf(d, dir)[i] == c;
      assert Slots(devs, dir)[n + i] == DeviceSlots(last, dir, Offset(init, dir))[i];
    }
  }

  /** The channel maps of all groups of a configuration. */
  ghost predicate AreMaps(devs: seq<Member>, groups: seq<Group>, maps: seq<seq<Entry>>, dir: Direction) {
    && |maps| == |groups|
    && forall i :: 0 <= i < |groups| ==> IsMap(maps[i], Slots(groups[i].devices, dir), RefsOf(devs, dir))
  }

  ghost predicate Mapped(maps: seq<seq<Entry>>, n: int) {
    exists i, j :: 0 <= i < |maps| && 0 <= j < |maps[i]| && maps[i][j].index == n
  }

  /** What the theorem asks of a configuration. */
  ghost predicate WellFormed(devs: seq<Member>, groups: seq<Group>, dir: Direction) {
    && UniqueMembers(devs) && NoRepeats(devs, dir) && AllInRange(devs, dir)
    && AreGroups(devs, groups, |Keys(devs)|)
  }

  lemma GroupInherits(devs: seq<Member>, groups: seq<Group>, dir: Direction, i: nat)
    requires WellFormed(devs, groups, dir) && i < |groups|
    ensures UniqueMembers(groups[i].devices) && NoRepeats(groups[i].devices, dir) && AllInRange(groups[i].devices, dir)
    ensures forall p :: 0 <= p < |groups[i].devices| ==> groups[i].devices[p] in devs
  {
    var k, g := Keys(devs)[i], groups[i].devices;
    HavingUnique(devs, k);
    hide Keys, KeyOf, InRange, ChannelsOf;
    assert g == Having(devs, k);
    forall p | 0 <= p < |g| ensures g[p] in devs && InRange(g[p], dir) {
      HavingIs(devs, k, g[p]);
    }
    hide Having;
    forall p, x, y | 0 <= p < |g| && 0 <= x < y < |ChannelsOf(g[p], dir)| ensures ChannelsOf(g[p], dir)[x] != ChannelsOf(g[p], dir)[y] {
      var q :| 0 <= q < |devs| && devs[q] == g[p];
      assert ChannelsOf(devs[q], dir)[x] != ChannelsOf(devs[q], dir)[y];
    }
  }

  /** Every global index occurs in the channel map of some group. */
  lemma {:induction false} EveryIndexIsMapped(devs: seq<Member>, groups: seq<Group>, maps: seq<seq<Entry>>, dir: Direction, n: nat)
    requires WellFormed(devs, groups, dir) && AreMaps(devs, groups, maps, dir) && n < |RefsOf(devs, dir)|
    ensures Mapped(maps, n)
  {
    hide *;
    WellFormedGives(devs, groups, dir);
    var refs := RefsOf(devs, dir);
    RefComesFrom(devs, dir, n);
    var d :| d in devs && d.name == refs[n].device && refs[n].channel in ChannelsOf(d, dir);
    GroupsPartition(devs, groups, d);
    var i :| 0 <= i < |groups| && d in groups[i].devices;
    SlotExists(groups[i].devices, dir, d, refs[n].channel);
    var j :| 0 <= j < |Slots(groups[i].devices, dir)| && Slots(groups[i].devices, dir)[j].ref == ChannelRef(d.name, refs[n].channel);
    MappedThere(devs, groups, maps, dir, n, i, j);
  }

  lemma WellFormedGives(devs: seq<Member>, groups: seq<Group>, dir: Direction)
    requires WellFormed(devs, groups, dir)
    ensures AreGroups(devs, groups, |Keys(devs)|) && Distinct(RefsOf(devs, dir))
  {
    RefsDistinct(devs, dir);
  }

  lemma MappedThere(devs: seq<Member>, groups: seq<Group>, maps: seq<seq<Entry>>, dir: Direction, n: nat, i: nat, j: nat)
    requires AreMaps(devs, groups, maps, dir) && n < |RefsOf(devs, dir)| && Distinct(RefsOf(devs, dir)) && i < |groups|
    requires j < |Slots(groups[i].devices, dir)| && Slots(groups[i].devices, dir)[j].ref == RefsOf(devs, dir)[n]
    ensures Mapped(maps, n)
  {
    hide RefsOf, Slots;
    var refs := RefsOf(devs, dir);
    assert IsMap(maps[i], Slots(groups[i].devices, dir), refs);
    assert refs[maps[i][j].index] == refs[n];
    assert maps[i][j].index == n;
  }

  /** Two different lines of the channel maps, of one group or of two, have different global indices. */
  lemma {:induction false} IndicesDiffer(devs: seq<Member>, groups: seq<Group>, maps: seq<seq<Entry>>, dir: Direction, i: nat, j: nat, i2: nat, j2: nat)
    requires WellFormed(devs, groups, dir) && AreMaps(devs, groups, maps, dir)
    requires i < |maps| && j < |maps[i]| && i2 < |maps| && j2 < |maps[i2]| && (i, j) != (i2, j2)
    ensures maps[i][j].index != maps[i2][j2].index
  {
    hide *;
    EntryRef(devs, groups, maps, dir, i, j);
    EntryRef(devs, groups, maps, dir, i2, j2);
    GroupInherits(devs, groups, dir, i);
    GroupInherits(devs, groups, dir, i2);
    var a, b := Slots(groups[i].devices, dir), Slots(groups[i2].devices, dir);
    if i == i2 {
      SlotRefsDistinct(groups[i].devices, dir, if j < j2 then j else j2, if j < j2 then j2 else j);
    } else {
      SlotComesFrom(groups[i].devices, dir, j);
      SlotComesFrom(groups[i2].devices, dir, j2);
      DifferentGroups(devs, groups, dir, i, i2, a[j].ref.device, b[j2].ref.device);
    }
  }

  lemma EntryRef(devs: seq<Member>, groups: seq<Group>, maps: seq<seq<Entry>>, dir: Direction, i: nat, j: nat)
    requires AreMaps(devs, groups, maps, dir) && i < |maps| && j < |maps[i]|
    ensures |maps| == |groups| && j < |Slots(groups[i].devices, dir)| && maps[i][j].index < |RefsOf(devs, dir)|
    ensures Slots(groups[i].devices, dir)[j].ref == RefsOf(devs, dir)[maps[i][j].index]
  {
    hide Slots, RefsOf;
    assert IsMap(maps[i], Slots(groups[i].devices, dir), RefsOf(devs, dir));
  }

  lemma DifferentGroups(devs: seq<Member>, groups: seq<Group>, dir: Direction, i: nat, i2: nat, name: string, name2: string)
    requires WellFormed(devs, groups, dir) && i < |groups| && i2 < |groups| && i != i2
    requires exists p :: 0 <= p < |groups[i].devices| && groups[i].devices[p].name == name
    requires exists p :: 0 <= p < |groups[i2].devices| && groups[i2].devices[p].name == name2
    ensures name != name2
  {
    GroupInherits(devs, groups, dir, i);
    GroupInherits(devs, groups, dir, i2);
    var p :| 0 <= p < |groups[i].devices| && groups[i].devices[p].name == name;
    var q :| 0 <= q < |groups[i2].devices| && groups[i2].devices[q].name == name2;
    var d, e := groups[i].devices[p], groups[i2].devices[q];
    GroupsPartition(devs, groups, d);
    assert d !in groups[i2].devices;
    assert d != e;
    hide AreGroups, NoRepeats, AllInRange;
    assert d in devs && e in devs;
  }

  /** Over all groups, the channel maps are a bijection between global channel indices and pairs of a group
      and a MultiUSRP channel: no channel of a group and no index occurs twice, and every index occurs. */
  lemma {:induction false} ChannelMapsAreABijection(devs: seq<Member>, groups: seq<Group>, maps: seq<seq<Entry>>, dir: Direction)
    requires WellFormed(devs, groups, dir) && AreMaps(devs, groups, maps, dir)
    ensures forall n :: 0 <= n < |RefsOf(devs, dir)| ==> Mapped(maps, n)
    ensures forall i, j, i2, j2 :: 0 <= i < |maps| && 0 <= j < |maps[i]| && 0 <= i2 < |maps| && 0 <= j2 < |maps[i2]| && (i, j) != (i2, j2) ==>
              maps[i][j].index != maps[i2][j2].index && !(i == i2 && maps[i][j].channel == maps[i2][j2].channel)
  {
    hide WellFormed, AreMaps, RefsOf;
    forall n | 0 <= n < |RefsOf(devs, dir)| ensures Mapped(maps, n) {
      EveryIndexIsMapped(devs, groups, maps, dir, n);
    }
    forall i, j, i2, j2 | 0 <= i < |maps| && 0 <= j < |maps[i]| && 0 <= i2 < |maps| && 0 <= j2 < |maps[i2]| && (i, j) != (i2, j2)
      ensures maps[i][j].index != maps[i2][j2].index && !(i == i2 && maps[i][j].channel == maps[i2][j2].channel)
    {
      IndicesDiffer(devs, groups, maps, dir, i, j, i2, j2);
      if i == i2 {
        ChannelsDiffer(devs, groups, maps, dir, i, if j < j2 then j else j2, if j < j2 then j2 else j);
      }
    }
  }

  lemma ChannelsDiffer(devs: seq<Member>, groups: seq<Group>, maps: seq<seq<Entry>>, dir: Direction, i: nat, j: nat, k: nat)
    requires WellFormed(devs, groups, dir) && AreMaps(devs, groups, maps, dir) && i < |maps| && j < k < |maps[i]|
    ensures maps[i][j].channel != maps[i][k].channel
  {
    GroupInherits(devs, groups, dir, i);
    hide WellFormed, RefsOf, Slots;
    SlotChannelsDistinct(groups[i].devices, dir, j, k);
  }
}
