/** The transmit frequency policy (active_regulatory.py) in its two forms: whole intervals (`band_check` on
    `tx_frequency_intervals`) and single spectral bins (`forbidden_mask`). */
module Regulatory {
  import opened Results
  import opened Reals

  /** A frequency band or interval, in Hz. */
  datatype Band = Band(lo: real, hi: real)

  datatype Mode = DummyLoad | Cabled | Radiate

  datatype Policy = Policy(mode: Mode, allow: seq<Band>, deny: seq<Band>, ignoreBuiltin: bool)

  const LeakHalfWidth := 1000.0

  /** Safety-of-life, navigation and radio astronomy bands. */
  const Builtin: seq<Band> := [
    Band(74800000.0, 75200000.0), Band(108000000.0, 137000000.0), Band(156762500.0, 156837500.0),
    Band(242950000.0, 243050000.0), Band(328600000.0, 335400000.0), Band(399900000.0, 400050000.0),
    Band(406000000.0, 406100000.0), Band(960000000.0, 1215000000.0), Band(1215000000.0, 1300000000.0),
    Band(1400000000.0, 1427000000.0), Band(1525000000.0, 1660500000.0), Band(2690000000.0, 2900000000.0),
    Band(4200000000.0, 4400000000.0), Band(5030000000.0, 5150000000.0), Band(5350000000.0, 5470000000.0),
    Band(9000000000.0, 9500000000.0), Band(10600000000.0, 10700000000.0), Band(15350000000.0, 15400000000.0)]

  predicate Conducted(mode: Mode) {
    mode.DummyLoad? || mode.Cabled?
  }

  /** The conducted modes may ignore the built-in bands. */
  predicate BuiltinIgnored(p: Policy) {
    p.ignoreBuiltin && Conducted(p.mode)
  }

  /** Touching edges do not overlap. */
  predicate Overlaps(a: Band, b: Band) {
    a.lo < b.hi && a.hi > b.lo
  }

  predicate Inside(a: Band, b: Band) {
    b.lo <= a.lo && a.hi <= b.hi
  }

  /** Bands overlap exactly when some frequency lies strictly within both. */
  lemma {:induction false} OverlapIsCommonPart(a: Band, b: Band)
    requires a.lo < a.hi && b.lo < b.hi
    ensures Overlaps(a, b) <==> exists z :: Within(a, z) && Within(b, z)
  {
    if Overlaps(a, b) {
      var lo, hi := if a.lo < b.lo then b.lo else a.lo, if a.hi < b.hi then a.hi else b.hi;
      assert Within(a, (lo + hi) / 2.0) && Within(b, (lo + hi) / 2.0);
    }
  }

  predicate Within(b: Band, z: real) {
    b.lo < z < b.hi
  }

  predicate On(b: Band, z: real) {
    b.lo <= z <= b.hi
  }

  /** One band lies inside another exactly when every frequency of it does. */
  lemma {:induction false} InsideIsContained(a: Band, b: Band)
    requires a.lo <= a.hi
    ensures Inside(a, b) <==> forall z :: On(a, z) ==> On(b, z)
  {
    if forall z :: On(a, z) ==> On(b, z) {
      assert On(a, a.lo) && On(a, a.hi);
    }
  }

  // --- the policy, on one interval -------------------------------------------------------------

  predicate InsideOne(iv: Band, bands: seq<Band>) {
    exists i :: 0 <= i < |bands| && Inside(iv, bands[i])
  }

  predicate OverlapsOne(iv: Band, bands: seq<Band>) {
    exists i :: 0 <= i < |bands| && Overlaps(iv, bands[i])
  }

  /** An interval that may not be transmitted on. */
  predicate Forbidden(iv: Band, p: Policy) {
    || !InsideOne(iv, p.allow)
    || OverlapsOne(iv, p.deny)
    || (!BuiltinIgnored(p) && OverlapsOne(iv, Builtin))
  }

  /** Part of an interval that may be used may be used. */
  lemma {:induction false} ForbiddenIsUpward(a: Band, b: Band, p: Policy)
    requires Inside(a, b) && Forbidden(a, p)
    ensures Forbidden(b, p)
  {
    hide Builtin;
    if InsideOne(b, p.allow) {
      var i :| 0 <= i < |p.allow| && Inside(b, p.allow[i]);
      assert Inside(a, p.allow[i]);
      OverlapIsUpward(a, b, p.deny);
      OverlapIsUpward(a, b, Builtin);
    }
  }

  lemma OverlapIsUpward(a: Band, b: Band, bands: seq<Band>)
    requires Inside(a, b)
    ensures OverlapsOne(a, bands) ==> OverlapsOne(b, bands)
  {
    if OverlapsOne(a, bands) {
      var i :| 0 <= i < |bands| && Overlaps(a, bands[i]);
      assert Overlaps(b, bands[i]);
    }
  }

  // --- band_check ------------------------------------------------------------------------------

  datatype Issue = NotAllowed | Denied(warning: bool)

  predicate IsError(i: Issue) {
    i.NotAllowed? || !i.warning
  }

  ghost predicate HasError(issues: seq<Issue>) {
    exists i :: 0 <= i < |issues| && IsError(issues[i])
  }

  /** One issue for every deny band hit. */
  function DenyIssues(iv: Band, bands: seq<Band>, warning: bool): seq<Issue>
    decreases |bands|
  {
    if bands == [] then []
    else
      var init := bands[..|bands| - 1];
      DenyIssues(iv, init, warning) + if Overlaps(iv, bands[|bands| - 1]) then [Denied(warning)] else []
  }

  function IssuesOf(iv: Band, p: Policy): seq<Issue> {
    (if InsideOne(iv, p.allow) then [] else [NotAllowed])
    + DenyIssues(iv, p.deny, false)
    + DenyIssues(iv, Builtin, BuiltinIgnored(p))
  }

  function AllIssues(ivs: seq<Band>, p: Policy): seq<Issue>
    decreases |ivs|
  {
    if ivs == [] then [] else AllIssues(ivs[..|ivs| - 1], p) + IssuesOf(ivs[|ivs| - 1], p)
  }

  method DenyLoop(iv: Band, bands: seq<Band>, warning: bool) returns (issues: seq<Issue>)
    ensures issues == DenyIssues(iv, bands, warning)
  {
    issues := [];
    var k := 0;
    while k < |bands|
      invariant k <= |bands| && issues == DenyIssues(iv, bands[..k], warning)
    {
      assert bands[..k + 1][..k] == bands[..k];
      if Overlaps(iv, bands[k]) {
        issues := issues + [Denied(warning)];
      }
      k := k + 1;
    }
    assert bands[..|bands|] == bands;
  }

  method BandCheck(ivs: seq<Band>, p: Policy) returns (issues: seq<Issue>)
    ensures issues == AllIssues(ivs, p)
  {
    hide Builtin, DenyIssues;
    issues := [];
    var k := 0;
    while k < |ivs|
      invariant k <= |ivs| && issues == AllIssues(ivs[..k], p)
    {
      var iv := ivs[k];
      ghost var before := issues;
      if !InsideOne(iv, p.allow) {
        issues := issues + [NotAllowed];
      }
      var denied := DenyLoop(iv, p.deny, false);
      var builtin := DenyLoop(iv, Builtin, BuiltinIgnored(p));
      issues := issues + denied + builtin;
      assert issues == before + IssuesOf(iv, p);
      assert ivs[..k + 1][..k] == ivs[..k];
      k := k + 1;
    }
    assert ivs[..|ivs|] == ivs;
  }

  lemma {:induction false} DenyIssuesAre(iv: Band, bands: seq<Band>, warning: bool)
    ensures HasError(DenyIssues(iv, bands, warning)) <==> !warning && OverlapsOne(iv, bands)
    ensures forall i :: 0 <= i < |DenyIssues(iv, bands, warning)| ==> DenyIssues(iv, bands, warning)[i] == Denied(warning)
    decreases |bands|
  {
    if bands != [] {
      var init, last := bands[..|bands| - 1], bands[|bands| - 1];
      DenyIssuesAre(iv, init, warning);
      var was, add := DenyIssues(iv, init, warning), if Overlaps(iv, last) then [Denied(warning)] else [];
      ErrorsConcat(was, add);
      OverlapsLast(iv, bands);
      assert HasError(add) <==> Overlaps(iv, last) && !warning by {
        if Overlaps(iv, last) { assert add[0] == Denied(warning); }
      }
    }
  }

  lemma OverlapsLast(iv: Band, bands: seq<Band>)
    requires bands != []
    ensures OverlapsOne(iv, bands) <==> OverlapsOne(iv, bands[..|bands| - 1]) || Overlaps(iv, bands[|bands| - 1])
  {
    var init := bands[..|bands| - 1];
    if OverlapsOne(iv, init) {
      var i :| 0 <= i < |init| && Overlaps(iv, init[i]);
      assert Overlaps(iv, bands[i]);
    }
    if OverlapsOne(iv, bands) && !Overlaps(iv, bands[|bands| - 1]) {
      var i :| 0 <= i < |bands| && Overlaps(iv, bands[i]);
      assert Overlaps(iv, init[i]);
    }
  }

  lemma ErrorsConcat(a: seq<Issue>, b: seq<Issue>)
    ensures HasError(a + b) <==> HasError(a) || HasError(b)
  {
    if HasError(a) {
      var i :| 0 <= i < |a| && IsError(a[i]);
      assert IsError((a + b)[i]);
    }
    if HasError(b) {
      var i :| 0 <= i < |b| && IsError(b[i]);
      assert IsError((a + b)[|a| + i]);
    }
    if HasError(a + b) {
      var i :| 0 <= i < |a + b| && IsError((a + b)[i]);
      assert if i < |a| then IsError(a[i]) else IsError(b[i - |a|]);
    }
  }

  lemma {:induction false} ErrorsOfInterval(iv: Band, p: Policy)
    ensures HasError(IssuesOf(iv, p)) <==> Forbidden(iv, p)
  {
    DenyIssuesAre(iv, p.deny, false);
    DenyIssuesAre(iv, Builtin, BuiltinIgnored(p));
    hide Builtin, DenyIssues, OverlapsOne, InsideOne;
    var head := if InsideOne(iv, p.allow) then [] else [NotAllowed];
    assert HasError(head) <==> !InsideOne(iv, p.allow) by {
      if !InsideOne(iv, p.allow) { assert IsError(head[0]); }
    }
    ErrorsConcat(head, DenyIssues(iv, p.deny, false));
    ErrorsConcat(head + DenyIssues(iv, p.deny, false), DenyIssues(iv, Builtin, BuiltinIgnored(p)));
  }

  /** `band_check` reports an error exactly when some interval is forbidden. */
  lemma {:induction false} ErrorsAreForbidden(ivs: seq<Band>, p: Policy)
    ensures HasError(AllIssues(ivs, p)) <==> exists i :: 0 <= i < |ivs| && Forbidden(ivs[i], p)
    decreases |ivs|
  {
    hide Forbidden, IssuesOf;
    if ivs != [] {
      var init, last := ivs[..|ivs| - 1], ivs[|ivs| - 1];
      ErrorsAreForbidden(init, p);
      ErrorsOfInterval(last, p);
      ErrorsConcat(AllIssues(init, p), IssuesOf(last, p));
      if i :| 0 <= i < |init| && Forbidden(init[i], p) {
        assert Forbidden(ivs[i], p);
      }
      if j :| 0 <= j < |ivs| && Forbidden(ivs[j], p) {
        assert j < |init| ==> Forbidden(init[j], p);
      }
    }
  }

  /** In radiate mode the built-in bands count whatever the override says; in a conducted mode with the override they
      are only warned about. */
  lemma {:induction false} OverrideIsForConductedModes(iv: Band, p: Policy)
    ensures p.mode == Radiate && OverlapsOne(iv, Builtin) ==> HasError(AllIssues([iv], p))
    ensures !p.ignoreBuiltin && OverlapsOne(iv, Builtin) ==> HasError(AllIssues([iv], p))
    ensures p.mode != Radiate && p.ignoreBuiltin ==>
              (HasError(AllIssues([iv], p)) <==> !InsideOne(iv, p.allow) || OverlapsOne(iv, p.deny))
  {
    hide Builtin, OverlapsOne, InsideOne, HasError, AllIssues;
    ErrorsAreForbidden([iv], p);
    assert [iv][0] == iv;
  }

  // --- the intervals of a transmission -----------------------------------------------------------

  /** The mirror image of a band about an LO. */
  function Mirror(b: Band, lo: real): Band {
    Band(2.0 * lo - b.hi, 2.0 * lo - b.lo)
  }

  function Around(f: real, half: real): Band {
    Band(f - half, f + half)
  }

  /** The image of a band holds the images of its frequencies; the LO is its own image. */
  lemma {:induction false} MirrorReflects(b: Band, lo: real, z: real)
    ensures On(Mirror(b, lo), z) <==> On(b, lo + (lo - z))
    ensures On(Around(z, 0.0), z) && On(Around(0.0, 1.0), z) == (-1.0 <= z <= 1.0)
  {
  }

  /** The occupied band and, with an LO offset, its images about both LO candidates. */
  function BandAndImages(fc: real, occHalf: real, off: real): seq<Band> {
    var occ := Around(fc, occHalf);
    if off == 0.0 then [occ] else [occ, Mirror(occ, fc - off), Mirror(occ, fc + off)]
  }

  /** LO leakage, about every LO candidate. */
  function Leakage(fc: real, off: real): seq<Band> {
    if off == 0.0 then [Around(fc, LeakHalfWidth)] else [Around(fc - off, LeakHalfWidth), Around(fc + off, LeakHalfWidth)]
  }

  /** Occupied band first, then leakage, then images. */
  function TxIntervals(fc: real, occHalf: real, off: real): seq<Band> {
    [Around(fc, occHalf)] + Leakage(fc, off) + BandAndImages(fc, occHalf, off)[1..]
  }

  /** Everything a transmission touches, or an error for a bad frequency or bandwidth. */
  method TxFrequencyIntervals(fc: real, occupied: real, off: real, fs: real) returns (r: Result<seq<Band>>)
    ensures r.Err? <==> fc <= 0.0 || (occupied <= 0.0 && fs <= 0.0)
    ensures r.Ok? && off == 0.0 ==> |r.value| == 2 && r.value[1..] == [Band(fc - 1000.0, fc + 1000.0)]
    ensures r.Ok? && off != 0.0 ==> |r.value| == 5 && r.value[1..3] == [Band(fc - off - 1000.0, fc - off + 1000.0), Band(fc + off - 1000.0, fc + off + 1000.0)]
    ensures r.Ok? ==> r.value == TxIntervals(fc, (if occupied <= 0.0 then fs else occupied) / 2.0, off)
  {
    if fc <= 0.0 {
      return Err(ValueError);
    }
    var occ := if occupied <= 0.0 then fs else occupied;
    if occ <= 0.0 {
      return Err(ValueError);
    }
    var half := occ / 2.0;
    var out := [Band(fc - half, fc + half)];
    if off == 0.0 {
      return Ok(out + [Band(fc - LeakHalfWidth, fc + LeakHalfWidth)]);
    }
    var los := [fc - off, fc + off];
    ghost var occBand := out[0];
    var k := 0;
    while k < 2
      invariant 0 <= k <= 2
      invariant out == [occBand] + [Around(los[0], LeakHalfWidth), Around(los[1], LeakHalfWidth)][..k]
    {
      out := out + [Band(los[k] - LeakHalfWidth, los[k] + LeakHalfWidth)];
      k := k + 1;
    }
    ghost var base := out;
    k := 0;
    while k < 2
      invariant 0 <= k <= 2
      invariant out == base + [Mirror(occBand, los[0]), Mirror(occBand, los[1])][..k]
    {
      var img := 2.0 * los[k] - fc;
      out := out + [Band(img - half, img + half)];
      k := k + 1;
    }
    return Ok(out);
  }

  // --- forbidden_mask --------------------------------------------------------------------------

  /** The nested test of `forbidden_mask`, over all bins at once. */
  method TestBins(fr: seq<real>, half: real, p: Policy) returns (bad: seq<bool>)
    ensures |bad| == |fr| && forall i :: 0 <= i < |fr| ==> bad[i] == Forbidden(Around(fr[i], half), p)
  {
    hide Builtin;
    var ok := seq(|fr|, i => false);
    var k := 0;
    while k < |p.allow|
      invariant k <= |p.allow| && |ok| == |fr|
      invariant forall i :: 0 <= i < |fr| ==> ok[i] == InsideOne(Around(fr[i], half), p.allow[..k])
    {
      InsideStep(fr, half, p.allow, k);
      ok := seq(|fr|, i requires 0 <= i < |fr| && |ok| == |fr| => ok[i] || Inside(Around(fr[i], half), p.allow[k]));
      k := k + 1;
    }
    assert p.allow[..|p.allow|] == p.allow;
    bad := seq(|fr|, i requires 0 <= i < |fr| && |ok| == |fr| => !ok[i]);
    var bands := p.deny + if BuiltinIgnored(p) then [] else Builtin;
    k := 0;
    while k < |bands|
      invariant k <= |bands| && |bad| == |fr|
      invariant forall i :: 0 <= i < |fr| ==>
                  bad[i] == (!InsideOne(Around(fr[i], half), p.allow) || OverlapsOne(Around(fr[i], half), bands[..k]))
    {
      OverlapStep(fr, half, bands, k);
      bad := seq(|fr|, i requires 0 <= i < |fr| && |bad| == |fr| => bad[i] || Overlaps(Around(fr[i], half), bands[k]));
      k := k + 1;
    }
    assert bands[..|bands|] == bands;
    forall i | 0 <= i < |fr| ensures bad[i] == Forbidden(Around(fr[i], half), p) {
      OverlapsConcat(Around(fr[i], half), p.deny, if BuiltinIgnored(p) then [] else Builtin);
    }
  }

  lemma InsideStep(fr: seq<real>, half: real, bands: seq<Band>, k: nat)
    requires k < |bands|
    ensures forall i :: 0 <= i < |fr| ==>
              (InsideOne(Around(fr[i], half), bands[..k + 1])
               <==> InsideOne(Around(fr[i], half), bands[..k]) || Inside(Around(fr[i], half), bands[k]))
  {
    forall i | 0 <= i < |fr|
      ensures InsideOne(Around(fr[i], half), bands[..k + 1])
              <==> InsideOne(Around(fr[i], half), bands[..k]) || Inside(Around(fr[i], half), bands[k])
    {
      var iv := Around(fr[i], half);
      var few, more := bands[..k], bands[..k + 1];
      if j :| 0 <= j < |few| && Inside(iv, few[j]) {
        assert Inside(iv, more[j]);
      }
      if j :| 0 <= j < |more| && Inside(iv, more[j]) {
        assert j < k ==> Inside(iv, few[j]);
      }
      assert more[k] == bands[k];
    }
  }

  lemma OverlapStep(fr: seq<real>, half: real, bands: seq<Band>, k: nat)
    requires k < |bands|
    ensures forall i :: 0 <= i < |fr| ==>
              (OverlapsOne(Around(fr[i], half), bands[..k + 1])
               <==> OverlapsOne(Around(fr[i], half), bands[..k]) || Overlaps(Around(fr[i], half), bands[k]))
  {
    forall i | 0 <= i < |fr|
      ensures OverlapsOne(Around(fr[i], half), bands[..k + 1])
              <==> OverlapsOne(Around(fr[i], half), bands[..k]) || Overlaps(Around(fr[i], half), bands[k])
    {
      OverlapsLast(Around(fr[i], half), bands[..k + 1]);
      assert bands[..k + 1][..k] == bands[..k];
    }
  }

  lemma OverlapsConcat(iv: Band, a: seq<Band>, b: seq<Band>)
    ensures OverlapsOne(iv, a + b) <==> OverlapsOne(iv, a) || OverlapsOne(iv, b)
  {
    if i :| 0 <= i < |a| && Overlaps(iv, a[i]) {
      assert Overlaps(iv, (a + b)[i]);
    }
    if i :| 0 <= i < |b| && Overlaps(iv, b[i]) {
      assert Overlaps(iv, (a + b)[|a| + i]);
    }
    if i :| 0 <= i < |a + b| && Overlaps(iv, (a + b)[i]) {
      assert if i < |a| then Overlaps(iv, a[i]) else Overlaps(iv, b[i - |a|]);
    }
  }

  /** A bin is masked when it, or its image about either LO candidate, is forbidden. */
  predicate Masked(f: real, half: real, p: Policy, off: real, fc: Option<real>) {
    || Forbidden(Around(f, half), p)
    || (off != 0.0 && fc.Some? && (Forbidden(Around(2.0 * (fc.value - off) - f, half), p)
                                   || Forbidden(Around(2.0 * (fc.value + off) - f, half), p)))
  }

  method ForbiddenMask(fr: seq<real>, bin: real, p: Policy, off: real, fc: Option<real>) returns (mask: seq<bool>)
    ensures |mask| == |fr| && forall i :: 0 <= i < |fr| ==> mask[i] == Masked(fr[i], Abs(bin) / 2.0, p, off, fc)
  {
    hide Forbidden;
    var half := Abs(bin) / 2.0;
    mask := TestBins(fr, half, p);
    if off != 0.0 && fc.Some? {
      var los := [fc.value - off, fc.value + off];
      ghost var first := mask;
      var k := 0;
      while k < 2
        invariant 0 <= k <= 2 && |mask| == |fr| == |first|
        invariant forall i :: 0 <= i < |fr| ==>
                    mask[i] == (first[i] || (k >= 1 && Forbidden(Around(2.0 * los[0] - fr[i], half), p))
                                || (k >= 2 && Forbidden(Around(2.0 * los[1] - fr[i], half), p)))
      {
        var images := seq(|fr|, i requires 0 <= i < |fr| => 2.0 * los[k] - fr[i]);
        var bad := TestBins(images, half, p);
        mask := seq(|fr|, i requires 0 <= i < |fr| && |mask| == |fr| == |bad| => mask[i] || bad[i]);
        k := k + 1;
      }
    }
  }

  // --- the two forms agree -----------------------------------------------------------------------

  /** A bin is masked exactly when `band_check` reports an error on the bin and its images. */
  lemma {:induction false} MaskIsBandCheck(f: real, half: real, p: Policy, off: real, fc: Option<real>)
    ensures var bin := Around(f, half);
            var ivs := if off == 0.0 || fc.None? then [bin] else [bin, Mirror(bin, fc.value - off), Mirror(bin, fc.value + off)];
            Masked(f, half, p, off, fc) <==> HasError(AllIssues(ivs, p))
  {
    hide Forbidden, HasError, AllIssues;
    var bin := Around(f, half);
    var ivs := if off == 0.0 || fc.None? then [bin] else [bin, Mirror(bin, fc.value - off), Mirror(bin, fc.value + off)];
    ErrorsAreForbidden(ivs, p);
    assert ivs[0] == bin;
    if off != 0.0 && fc.Some? {
      assert ivs[1] == Around(2.0 * (fc.value - off) - f, half) && ivs[2] == Around(2.0 * (fc.value + off) - f, half);
    }
  }

  /** The intervals of a transmission are clean exactly when band, images and leakage are. */
  lemma {:induction false} TxErrorsAre(fc: real, occHalf: real, off: real, p: Policy)
    ensures !HasError(AllIssues(TxIntervals(fc, occHalf, off), p))
            <==> && (forall i :: 0 <= i < |BandAndImages(fc, occHalf, off)| ==> !Forbidden(BandAndImages(fc, occHalf, off)[i], p))
                 && (forall i :: 0 <= i < |Leakage(fc, off)| ==> !Forbidden(Leakage(fc, off)[i], p))
  {
    hide Forbidden, HasError, AllIssues;
    var ivs, whole, leaks := TxIntervals(fc, occHalf, off), BandAndImages(fc, occHalf, off), Leakage(fc, off);
    ErrorsAreForbidden(ivs, p);
    forall i | 0 <= i < |whole| ensures whole[i] in ivs {
      assert whole[i] == ivs[if i == 0 then 0 else |leaks| + i];
    }
    forall i | 0 <= i < |leaks| ensures leaks[i] in ivs {
      assert leaks[i] == ivs[i + 1];
    }
    forall i | 0 <= i < |ivs| ensures ivs[i] in whole || ivs[i] in leaks {
      assert if i == 0 then ivs[i] == whole[0] else if i <= |leaks| then ivs[i] == leaks[i - 1] else ivs[i] == whole[i - |leaks|];
    }
  }

  /** A transmission that passes `band_check` has no masked bin inside its occupied band, with the images
      about both LO candidates. */
  lemma {:induction false} CleanCheckClearsTheMask(fc: real, occHalf: real, off: real, p: Policy, f: real, half: real)
    requires !HasError(AllIssues(TxIntervals(fc, occHalf, off), p))
    requires Inside(Around(f, half), Around(fc, occHalf))
    ensures !Masked(f, half, p, off, Some(fc))
  {
    hide Forbidden, HasError, AllIssues, TxIntervals;
    TxErrorsAre(fc, occHalf, off, p);
    var bin, occ, whole := Around(f, half), Around(fc, occHalf), BandAndImages(fc, occHalf, off);
    assert whole[0] == occ;
    if Forbidden(bin, p) {
      ForbiddenIsUpward(bin, occ, p);
    }
    if off != 0.0 {
      assert whole[1] == Mirror(occ, fc - off) && whole[2] == Mirror(occ, fc + off);
      MirrorInside(bin, occ, fc - off);
      MirrorInside(bin, occ, fc + off);
      if Forbidden(Mirror(bin, fc - off), p) {
        ForbiddenIsUpward(Mirror(bin, fc - off), Mirror(occ, fc - off), p);
      }
      if Forbidden(Mirror(bin, fc + off), p) {
        ForbiddenIsUpward(Mirror(bin, fc + off), Mirror(occ, fc + off), p);
      }
    }
  }

  lemma MirrorInside(a: Band, b: Band, lo: real)
    ensures Inside(a, b) <==> Inside(Mirror(a, lo), Mirror(b, lo))
  {
  }

  // --- what the mask does not see ----------------------------------------------------------------

  /** As the configuration demands of every band. */
  predicate Proper(bands: seq<Band>) {
    forall i :: 0 <= i < |bands| ==> bands[i].lo < bands[i].hi
  }

  ghost predicate CoveredAt(bins: iset<real>, half: real, z: real) {
    exists f :: f in bins && f - half <= z <= f + half
  }

  /** Every frequency of the interval is in some bin. */
  ghost predicate Covers(bins: iset<real>, half: real, iv: Band) {
    forall z :: iv.lo <= z <= iv.hi ==> CoveredAt(bins, half, z)
  }

  /** Bins that cover an interval hit every proper band the interval overlaps. */
  lemma {:induction false} SomeBinOverlaps(bins: iset<real>, half: real, iv: Band, b: Band) returns (f: real)
    requires iv.lo < iv.hi && b.lo < b.hi && Covers(bins, half, iv) && Overlaps(iv, b)
    ensures f in bins && Overlaps(Around(f, half), b)
  {
    var lo, hi := if iv.lo < b.lo then b.lo else iv.lo, if iv.hi < b.hi then iv.hi else b.hi;
    var z := (lo + hi) / 2.0;
    assert CoveredAt(bins, half, z);
    f :| f in bins && f - half <= z <= f + half;
  }

  lemma {:induction false} NoBinOverlaps(bins: iset<real>, half: real, iv: Band, bands: seq<Band>)
    requires iv.lo < iv.hi && Proper(bands) && Covers(bins, half, iv)
    requires forall f :: f in bins ==> !OverlapsOne(Around(f, half), bands)
    ensures !OverlapsOne(iv, bands)
  {
    if i :| 0 <= i < |bands| && Overlaps(iv, bands[i]) {
      var f := SomeBinOverlaps(bins, half, iv, bands[i]);
      assert OverlapsOne(Around(f, half), bands);
    }
  }

  /** With no forbidden bin, an interval the bins cover is forbidden exactly when it lies in no single allow band. */
  lemma {:induction false} CoveredForbiddenExactly(bins: iset<real>, half: real, iv: Band, p: Policy)
    requires iv.lo < iv.hi && Proper(p.deny) && Covers(bins, half, iv)
    requires forall f :: f in bins ==> !Forbidden(Around(f, half), p)
    ensures Forbidden(iv, p) <==> !InsideOne(iv, p.allow)
  {
    assert Proper(Builtin);
    hide Builtin, Covers, OverlapsOne, InsideOne, Proper, Around;
    NoBinOverlaps(bins, half, iv, p.deny);
    if !BuiltinIgnored(p) {
      NoBinOverlaps(bins, half, iv, Builtin);
    }
  }

  function Reflect(f: real, lo: real): real {
    2.0 * lo - f
  }

  ghost function Images(bins: iset<real>, lo: real): iset<real> {
    iset f: real | Reflect(f, lo) in bins
  }

  /** The images of bins that cover a band cover its image. */
  lemma MirroredCover(bins: iset<real>, half: real, iv: Band, lo: real)
    requires Covers(bins, half, iv)
    ensures Covers(Images(bins, lo), half, Mirror(iv, lo))
  {
    var images := Images(bins, lo);
    forall z | Mirror(iv, lo).lo <= z <= Mirror(iv, lo).hi ensures CoveredAt(images, half, z) {
      assert CoveredAt(bins, half, 2.0 * lo - z);
      var f :| f in bins && f - half <= 2.0 * lo - z <= f + half;
      assert Reflect(Reflect(f, lo), lo) == f;
      assert Reflect(f, lo) in images;
    }
  }

  lemma {:induction false} ImageForbiddenExactly(bins: iset<real>, half: real, iv: Band, lo: real, p: Policy)
    requires iv.lo < iv.hi && Proper(p.deny) && Covers(bins, half, iv)
    requires forall f :: f in bins ==> !Forbidden(Around(2.0 * lo - f, half), p)
    ensures Forbidden(Mirror(iv, lo), p) <==> !InsideOne(Mirror(iv, lo), p.allow)
  {
    MirroredCover(bins, half, iv, lo);
    var images := Images(bins, lo);
    forall f | f in images ensures !Forbidden(Around(f, half), p) {
      assert f == 2.0 * lo - Reflect(f, lo);
    }
    hide Forbidden, Covers, InsideOne;
    CoveredForbiddenExactly(images, half, Mirror(iv, lo), p);
  }

  /** Every part lies in one allow band. */
  ghost predicate EachInOneBand(ivs: seq<Band>, allow: seq<Band>) {
    forall i :: 0 <= i < |ivs| ==> InsideOne(ivs[i], allow)
  }

  lemma {:induction false} UnmaskedParts(fc: real, occHalf: real, off: real, p: Policy, bins: iset<real>, half: real)
    requires occHalf > 0.0 && Proper(p.deny) && Covers(bins, half, Around(fc, occHalf))
    requires forall f :: f in bins ==> !Masked(f, half, p, off, Some(fc))
    ensures var whole := BandAndImages(fc, occHalf, off);
            (forall i :: 0 <= i < |whole| ==> !Forbidden(whole[i], p)) <==> EachInOneBand(whole, p.allow)
  {
    hide Forbidden, Covers, InsideOne;
    var occ, whole := Around(fc, occHalf), BandAndImages(fc, occHalf, off);
    forall f | f in bins ensures !Forbidden(Around(f, half), p) {
      assert !Masked(f, half, p, off, Some(fc));
    }
    CoveredForbiddenExactly(bins, half, occ, p);
    if off != 0.0 {
      forall f | f in bins
        ensures !Forbidden(Around(2.0 * (fc - off) - f, half), p) && !Forbidden(Around(2.0 * (fc + off) - f, half), p)
      {
        assert !Masked(f, half, p, off, Some(fc));
      }
      ImageForbiddenExactly(bins, half, occ, fc - off, p);
      ImageForbiddenExactly(bins, half, occ, fc + off, p);
    }
  }

  /** Bins that cover the occupied band without leaving it: `band_check` passes a transmission exactly when no
      bin is masked, the band and each image lie in one allow band each, and no leakage is forbidden. */
  lemma {:induction false} CheckIsMaskAndCover(fc: real, occHalf: real, off: real, p: Policy, bins: iset<real>, half: real)
    requires occHalf > 0.0 && Proper(p.deny) && Covers(bins, half, Around(fc, occHalf))
    requires forall f :: f in bins ==> Inside(Around(f, half), Around(fc, occHalf))
    ensures !HasError(AllIssues(TxIntervals(fc, occHalf, off), p))
            <==> && (forall f :: f in bins ==> !Masked(f, half, p, off, Some(fc)))
                 && EachInOneBand(BandAndImages(fc, occHalf, off), p.allow)
                 && (forall i :: 0 <= i < |Leakage(fc, off)| ==> !Forbidden(Leakage(fc, off)[i], p))
  {
    TxErrorsAre(fc, occHalf, off, p);
    if !HasError(AllIssues(TxIntervals(fc, occHalf, off), p)) {
      forall f | f in bins ensures !Masked(f, half, p, off, Some(fc)) {
        CleanCheckClearsTheMask(fc, occHalf, off, p, f, half);
      }
    }
    hide Forbidden, Covers, BandAndImages, Leakage, TxIntervals, HasError, AllIssues, Masked, EachInOneBand, Inside;
    if forall f :: f in bins ==> !Masked(f, half, p, off, Some(fc)) {
      UnmaskedParts(fc, occHalf, off, p, bins, half);
    }
  }

  ghost function BinsInside(iv: Band, half: real): iset<real> {
    iset f: real | Inside(Around(f, half), iv)
  }

  /** All bins of one width inside a band cover it. */
  lemma {:induction false} AllBinsCover(fc: real, occHalf: real, half: real)
    requires 0.0 < half <= occHalf
    ensures Covers(BinsInside(Around(fc, occHalf), half), half, Around(fc, occHalf))
  {
    var bins := BinsInside(Around(fc, occHalf), half);
    forall z | Around(fc, occHalf).lo <= z <= Around(fc, occHalf).hi ensures CoveredAt(bins, half, z) {
      var f := if z < fc - occHalf + half then fc - occHalf + half else if z > fc + occHalf - half then fc + occHalf - half else z;
      assert f in bins;
    }
  }

  /** When no bin inside the occupied band is masked, `band_check` of the band fails exactly when the band
      lies in no single allow band. */
  lemma {:induction false} UnmaskedBandFailsExactly(fc: real, occHalf: real, half: real, p: Policy)
    requires 0.0 < half <= occHalf && Proper(p.deny)
    requires forall f :: Inside(Around(f, half), Around(fc, occHalf)) ==> !Masked(f, half, p, 0.0, Some(fc))
    ensures HasError(AllIssues([Around(fc, occHalf)], p)) <==> !InsideOne(Around(fc, occHalf), p.allow)
  {
    var occ := Around(fc, occHalf);
    AllBinsCover(fc, occHalf, half);
    var bins := BinsInside(occ, half);
    hide Covers, InsideOne, Forbidden, HasError, AllIssues;
    forall f | f in bins ensures !Forbidden(Around(f, half), p) {
      assert !Masked(f, half, p, 0.0, Some(fc));
    }
    CoveredForbiddenExactly(bins, half, occ, p);
    ErrorsAreForbidden([occ], p);
    assert [occ][0] == occ;
  }

  /** The mask is the weaker form: an occupied band across two adjoining allow bands fails `band_check`,
      yet no bin that stays on one side of the joint is masked. */
  lemma {:induction false} JoinedAllowBands(f: real, half: real)
    requires half > 0.0 && (Inside(Around(f, half), Band(10.0, 20.0)) || Inside(Around(f, half), Band(20.0, 30.0)))
    ensures var p := Policy(DummyLoad, [Band(10.0, 20.0), Band(20.0, 30.0)], [], true);
            HasError(AllIssues([Around(20.0, 10.0)], p)) && !Masked(f, half, p, 0.0, Some(20.0))
  {
    var p := Policy(DummyLoad, [Band(10.0, 20.0), Band(20.0, 30.0)], [], true);
    ErrorsAreForbidden([Around(20.0, 10.0)], p);
    assert !InsideOne(Around(20.0, 10.0), p.allow);
    assert Forbidden([Around(20.0, 10.0)][0], p);
    var i := if Inside(Around(f, half), Band(10.0, 20.0)) then 0 else 1;
    assert Inside(Around(f, half), p.allow[i]);
  }

  /** Nor with overlapping allow bands any bin at all, up to the width of the overlap. */
  lemma {:induction false} OverlappingAllowBands(f: real, half: real)
    requires 0.0 < half <= 5.0 && Inside(Around(f, half), Around(20.0, 10.0))
    ensures var p := Policy(DummyLoad, [Band(10.0, 25.0), Band(15.0, 30.0)], [], true);
            HasError(AllIssues([Around(20.0, 10.0)], p)) && !Masked(f, half, p, 0.0, Some(20.0))
  {
    var p := Policy(DummyLoad, [Band(10.0, 25.0), Band(15.0, 30.0)], [], true);
    ErrorsAreForbidden([Around(20.0, 10.0)], p);
    assert !InsideOne(Around(20.0, 10.0), p.allow);
    assert Forbidden([Around(20.0, 10.0)][0], p);
    assert Inside(Around(f, half), p.allow[if f + half <= 25.0 then 0 else 1]);
  }
}
