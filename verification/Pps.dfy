/** PPS edges at whole true seconds, and the stretches in which they are missing (`_suppressed`,
    `_gap_at`, `_edge_after`, `_last_edge` of active_backend_sim.py). */
module Pps {
  import opened Results
  import opened Reals

  /** Edges n with start <= n < end are missing; without an end, all from `start` on. */
  datatype Gap = Gap(start: real, end: Option<real>)

  predicate Covers(g: Gap, n: int) {
    n as real >= g.start && (g.end.None? || (n as real) < g.end.value)
  }

  predicate Suppressed(gaps: seq<Gap>, n: int) {
    exists i :: 0 <= i < |gaps| && Covers(gaps[i], n)
  }

  // --- the reference: plain scans over the edges ----------------------------------------------

  /** The least unsuppressed edge from n up to `until`. */
  function ScanUp(gaps: seq<Gap>, n: int, until: real): (e: Option<int>)
    ensures e.Some? ==> n <= e.value && e.value as real <= until && !Suppressed(gaps, e.value)
    ensures forall m :: n <= m && m as real <= until && (e.None? || m < e.value) ==> Suppressed(gaps, m)
    decreases until.Floor - n + 1
  {
    if n as real > until then None
    else if !Suppressed(gaps, n) then Some(n)
    else ScanUp(gaps, n + 1, until)
  }

  /** First edge after T and not later than `until`. */
  function FirstEdge(gaps: seq<Gap>, T: real, until: real): Option<int> {
    ScanUp(gaps, T.Floor + 1, until)
  }

  /** The greatest unsuppressed edge from n down to 0. */
  function ScanDown(gaps: seq<Gap>, n: int): (e: Option<int>)
    ensures e.Some? ==> 0 <= e.value <= n && !Suppressed(gaps, e.value)
    ensures forall m :: 0 <= m <= n && (e.None? || m > e.value) ==> Suppressed(gaps, m)
    decreases n + 1
  {
    if n < 0 then None
    else if !Suppressed(gaps, n) then Some(n)
    else ScanDown(gaps, n - 1)
  }

  /** Last edge at or before T. */
  function LastEdge(gaps: seq<Gap>, T: real): Option<int> {
    ScanDown(gaps, T.Floor)
  }

  lemma ScanUpIs(gaps: seq<Gap>, n: int, until: real, e: Option<int>)
    requires e.Some? ==> n <= e.value && e.value as real <= until && !Suppressed(gaps, e.value)
    requires forall m :: n <= m && m as real <= until && (e.None? || m < e.value) ==> Suppressed(gaps, m)
    ensures ScanUp(gaps, n, until) == e
  {
  }

  lemma ScanDownIs(gaps: seq<Gap>, n: int, e: Option<int>)
    requires e.Some? ==> 0 <= e.value <= n && !Suppressed(gaps, e.value)
    requires forall m :: 0 <= m <= n && (e.None? || m > e.value) ==> Suppressed(gaps, m)
    ensures ScanDown(gaps, n) == e
  {
  }

  /** Looking further ahead does not change the first edge. */
  lemma {:induction false} FirstEdgeStable(gaps: seq<Gap>, T: real, until: real, later: real)
    requires until <= later
    ensures FirstEdge(gaps, T, until).Some? ==> FirstEdge(gaps, T, later) == FirstEdge(gaps, T, until)
  {
    var e := FirstEdge(gaps, T, until);
    if e.Some? {
      ScanUpIs(gaps, T.Floor + 1, later, e);
    }
  }

  // --- the searches that jump over gaps --------------------------------------------------------

  method GapAt(gaps: seq<Gap>, n: int) returns (g: Option<Gap>)
    ensures g.None? <==> !Suppressed(gaps, n)
    ensures g.Some? ==> g.value in gaps && Covers(g.value, n)
  {
    for i := 0 to |gaps|
      invariant forall j :: 0 <= j < i ==> !Covers(gaps[j], n)
    {
      if Covers(gaps[i], n) {
        return Some(gaps[i]);
      }
    }
    return None;
  }

  /** Jumping to the end of each gap met finds the same edge as the plain scan, and terminates. */
  method EdgeAfter(gaps: seq<Gap>, T: real, until: real) returns (e: Option<int>)
    ensures e == FirstEdge(gaps, T, until)
  {
    var n := T.Floor + 1;
    while n as real <= until
      invariant n >= T.Floor + 1
      invariant forall m :: T.Floor + 1 <= m < n ==> Suppressed(gaps, m)
      decreases until.Floor - n + 1
    {
      var gap := GapAt(gaps, n);
      if gap.None? {
        ScanUpIs(gaps, T.Floor + 1, until, Some(n));
        return Some(n);
      }
      CoversOn(gaps, gap.value, n);
      if gap.value.end.None? {
        ScanUpIs(gaps, T.Floor + 1, until, None);
        return None;
      }
      var end := Ceil(gap.value.end.value);
      n := if n + 1 >= end then n + 1 else end;
    }
    ScanUpIs(gaps, T.Floor + 1, until, None);
    return None;
  }

  /** Everything between an edge in a gap and the end of the gap is suppressed. */
  lemma CoversOn(gaps: seq<Gap>, g: Gap, n: int)
    requires g in gaps && Covers(g, n)
    ensures forall m :: n <= m && (g.end.None? || (m as real) < g.end.value) ==> Suppressed(gaps, m)
    ensures forall m :: g.start <= m as real && m <= n ==> Suppressed(gaps, m)
  {
    var i :| 0 <= i < |gaps| && gaps[i] == g;
    forall m | n <= m && (g.end.None? || (m as real) < g.end.value) ensures Suppressed(gaps, m) {
      assert Covers(gaps[i], m);
    }
    forall m | g.start <= m as real && m <= n ensures Suppressed(gaps, m) {
      assert Covers(gaps[i], m);
    }
  }

  /** Jumping to the start of each gap met finds the same edge as the plain scan, and terminates. */
  method EdgeBefore(gaps: seq<Gap>, T: real) returns (e: Option<int>)
    ensures e == LastEdge(gaps, T)
  {
    var n := T.Floor;
    while n >= 0
      invariant n <= T.Floor
      invariant forall m :: n < m <= T.Floor && m >= 0 ==> Suppressed(gaps, m)
      decreases n + 1
    {
      var gap := GapAt(gaps, n);
      if gap.None? {
        ScanDownIs(gaps, T.Floor, Some(n));
        return Some(n);
      }
      CoversOn(gaps, gap.value, n);
      n := Ceil(gap.value.start) - 1;
    }
    ScanDownIs(gaps, T.Floor, None);
    return None;
  }

  // --- the fault: edges go missing, and come back ----------------------------------------------

  /** At true time `now` every gap has begun, and a closed one has ended; one at most is open. */
  ghost predicate GapsUntil(gaps: seq<Gap>, now: real) {
    && (forall i :: 0 <= i < |gaps| ==> gaps[i].start <= now)
    && (forall i :: 0 <= i < |gaps| && gaps[i].end.Some? ==> gaps[i].end.value <= now)
    && (forall i, j :: 0 <= i < j < |gaps| && gaps[i].end.None? ==> gaps[j].end.Some?)
  }

  predicate Missing(gaps: seq<Gap>) {
    exists i :: 0 <= i < |gaps| && gaps[i].end.None?
  }

  /** `inject_fault("pps_missing")`: opens a gap unless one is open. */
  function Inject(gaps: seq<Gap>, now: real): seq<Gap> {
    if Missing(gaps) then gaps else gaps + [Gap(now, None)]
  }

  /** `clear_faults`: closes the open gap now. */
  function Clear(gaps: seq<Gap>, now: real): seq<Gap> {
    seq(|gaps|, i requires 0 <= i < |gaps| => if gaps[i].end.None? then Gap(gaps[i].start, Some(now)) else gaps[i])
  }

  /** Injecting or clearing the fault never rewrites an edge strictly before the present, and the
      present state decides all edges from now on: none comes while a gap is open, all do otherwise. */
  lemma {:induction false} FaultsKeepThePast(gaps: seq<Gap>, now: real, n: int)
    requires GapsUntil(gaps, now)
    ensures GapsUntil(Inject(gaps, now), now) && GapsUntil(Clear(gaps, now), now)
    ensures Missing(Inject(gaps, now)) && !Missing(Clear(gaps, now))
    ensures (n as real) < now ==> (Suppressed(Inject(gaps, now), n) <==> Suppressed(gaps, n))
    ensures (n as real) < now ==> (Suppressed(Clear(gaps, now), n) <==> Suppressed(gaps, n))
    ensures n as real >= now ==> (Suppressed(gaps, n) <==> Missing(gaps))
  {
    var inj, clr := Inject(gaps, now), Clear(gaps, now);
    assert Missing(inj) by {
      if !Missing(gaps) { assert inj[|gaps|].end.None?; }
    }
    forall i | 0 <= i < |gaps|
      ensures inj[i] == gaps[i]
      ensures (n as real) < now ==> (Covers(clr[i], n) <==> Covers(gaps[i], n))
      ensures n as real >= now ==> (Covers(gaps[i], n) <==> gaps[i].end.None?)
    {
    }
    if (n as real) < now && Suppressed(gaps, n) {
      var i :| 0 <= i < |gaps| && Covers(gaps[i], n);
      assert Covers(inj[i], n) && Covers(clr[i], n);
    }
    if n as real >= now && Missing(gaps) {
      var i :| 0 <= i < |gaps| && gaps[i].end.None?;
      assert Covers(gaps[i], n);
    }
  }
}
