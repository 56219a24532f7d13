/** One device clock of the simulator: a piecewise linear map from true time to device time, kept as
    a list of anchors (`_t_dev`, `_true_of`, `_reanchor` of active_backend_sim.py). */
module DeviceClocks {

  /** From true time `at` on, the device reads `shows` plus (1 + rate) per true second. */
  datatype Anchor = Anchor(at: real, shows: real, rate: real)

  ghost predicate Sorted(c: seq<Anchor>) {
    forall i, j :: 0 <= i < j < |c| ==> c[i].at <= c[j].at
  }

  ghost predicate Wellformed(c: seq<Anchor>) {
    && |c| > 0
    && Sorted(c)
    && forall i :: 0 <= i < |c| ==> c[i].rate > -1.0
  }

  function Line(a: Anchor, T: real): real {
    a.shows + (T - a.at) * (1.0 + a.rate)
  }

  /** The true time at which the line through `a` passes `t`. */
  function Solve(a: Anchor, t: real): real
    requires a.rate > -1.0
  {
    a.at + (t - a.shows) / (1.0 + a.rate)
  }

  lemma SolveIsInverse(a: Anchor, t: real, T: real)
    requires a.rate > -1.0
    ensures Line(a, T) == t <==> T == Solve(a, t)
  {
    var k := 1.0 + a.rate;
    assert (t - a.shows) / k * k == t - a.shows;
    Cancel(T - a.at, (t - a.shows) / k, k);
  }

  lemma Cancel(x: real, y: real, k: real)
    requires k > 0.0
    ensures x * k == y * k <==> x == y
  {
  }

  /** Index of the last anchor at or before T; the first one when T lies before all of them. */
  function Governing(c: seq<Anchor>, T: real): (g: nat)
    requires |c| > 0
    ensures g < |c| && (g > 0 ==> c[g].at <= T)
    ensures forall j :: g < j < |c| ==> c[j].at > T
  {
    if |c| == 1 || c[|c| - 1].at <= T then |c| - 1 else Governing(c[..|c| - 1], T)
  }

  /** What the device reads at true time T. */
  function Reading(c: seq<Anchor>, T: real): real
    requires |c| > 0
  {
    Line(c[Governing(c, T)], T)
  }

  lemma GoverningIs(c: seq<Anchor>, T: real, g: nat)
    requires Wellformed(c) && g < |c|
    requires g > 0 ==> c[g].at <= T
    requires g + 1 < |c| ==> c[g + 1].at > T
    ensures Governing(c, T) == g
  {
  }

  /** The forward scan with its early exit computes the reading. */
  method DeviceTime(c: seq<Anchor>, T: real) returns (t: real)
    requires Wellformed(c)
    ensures t == Reading(c, T)
  {
    var a := c[0];
    ghost var g := 0;
    for i := 0 to |c|
      invariant g < |c| && a == c[g] && g == if i == 0 then 0 else i - 1
      invariant forall j :: 0 <= j < i ==> c[j].at <= T
    {
      if c[i].at <= T {
        a, g := c[i], i;
      } else {
        break;
      }
    }
    GoverningIs(c, T, g);
    t := Line(a, T);
  }

  /** Does the device ever read t? A load that jumps forward skips readings. */
  ghost predicate EverReads(c: seq<Anchor>, t: real)
    requires |c| > 0
  {
    exists T :: Reading(c, T) == t
  }

  /** The backward scan returns the latest true time at which the device reads t, whenever there is
      one; otherwise it extends the last anchor's line backward. */
  method TrueTime(c: seq<Anchor>, t: real) returns (T: real)
    requires Wellformed(c)
    ensures EverReads(c, t) ==> Reading(c, T) == t && forall T' :: Reading(c, T') == t ==> T' <= T
    ensures !EverReads(c, t) ==> T == Solve(c[|c| - 1], t)
  {
    var i := |c| - 1;
    while i >= 0
      invariant -1 <= i < |c|
      invariant i < |c| - 1 ==> forall T' :: Reading(c, T') == t ==> Governing(c, T') <= i
    {
      var a := c[i];
      T := Solve(a, t);
      if (T >= a.at || i == 0) && (i + 1 == |c| || T < c[i + 1].at) {
        GoverningIs(c, T, i);
        SolveIsInverse(a, t, T);
        forall T' | Reading(c, T') == t ensures T' <= T {
          LaterSegmentsOnly(c, t, i, T');
        }
        return;
      }
      forall T' | Reading(c, T') == t ensures Governing(c, T') <= i - 1 {
        SolveIsInverse(c[Governing(c, T')], t, T');
      }
      i := i - 1;
    }
    forall T' ensures Reading(c, T') != t {
    }
    T := Solve(c[|c| - 1], t);
  }

  lemma LaterSegmentsOnly(c: seq<Anchor>, t: real, i: nat, T': real)
    requires Wellformed(c) && i < |c|
    requires Reading(c, T') == t && Governing(c, T') <= i
    requires var T := Solve(c[i], t); T >= c[i].at || i == 0
    ensures T' <= Solve(c[i], t)
  {
    var g := Governing(c, T');
    if g == i {
      SolveIsInverse(c[i], t, T');
    }
  }

  // --- editing the anchor list -----------------------------------------------------------------

  /** The anchors at or before T, in order. */
  function UpTo(c: seq<Anchor>, T: real): seq<Anchor> {
    if c == [] then []
    else UpTo(c[..|c| - 1], T) + if c[|c| - 1].at <= T then [c[|c| - 1]] else []
  }

  /** The anchors after T, re-rated. */
  function After(c: seq<Anchor>, T: real, rate: real): seq<Anchor> {
    if c == [] then []
    else
      var last := c[|c| - 1];
      After(c[..|c| - 1], T, rate) + if last.at > T then [last.(rate := rate)] else []
  }

  /** How many anchors lie at or before T. */
  function Passed(c: seq<Anchor>, T: real): (k: nat)
    ensures k <= |c| && (k > 0 ==> c[k - 1].at <= T)
    ensures forall j :: k <= j < |c| ==> c[j].at > T
  {
    if c == [] || c[|c| - 1].at <= T then |c| else Passed(c[..|c| - 1], T)
  }

  /** On a sorted list filtering by time is cutting. */
  lemma {:induction false} FilterIsCut(c: seq<Anchor>, T: real, rate: real)
    requires Sorted(c)
    ensures UpTo(c, T) == c[..Passed(c, T)]
    ensures |After(c, T, rate)| == |c| - Passed(c, T)
    ensures forall j :: 0 <= j < |c| - Passed(c, T) ==> After(c, T, rate)[j] == c[Passed(c, T) + j].(rate := rate)
  {
    UpToIsCut(c, T);
    AfterIsCut(c, T, rate);
  }

  lemma {:induction false} AllPassed(c: seq<Anchor>, T: real)
    requires Sorted(c) && c != [] && c[|c| - 1].at <= T
    ensures Passed(c[..|c| - 1], T) == |c| - 1 && Passed(c, T) == |c|
  {
    var init := c[..|c| - 1];
    if init != [] {
      assert init[|init| - 1].at <= c[|c| - 1].at;
    }
  }

  lemma {:induction false} UpToIsCut(c: seq<Anchor>, T: real)
    requires Sorted(c)
    ensures UpTo(c, T) == c[..Passed(c, T)]
  {
    if c != [] {
      var init := c[..|c| - 1];
      UpToIsCut(init, T);
      if c[|c| - 1].at <= T {
        AllPassed(c, T);
        assert c == init + [c[|c| - 1]];
      } else {
        assert init[..Passed(init, T)] == c[..Passed(init, T)];
      }
    }
  }

  lemma {:induction false} AfterIsCut(c: seq<Anchor>, T: real, rate: real)
    requires Sorted(c)
    ensures |After(c, T, rate)| == |c| - Passed(c, T)
    ensures forall j :: 0 <= j < |c| - Passed(c, T) ==> After(c, T, rate)[j] == c[Passed(c, T) + j].(rate := rate)
  {
    if c != [] {
      var init, last := c[..|c| - 1], c[|c| - 1];
      AfterIsCut(init, T, rate);
      var k, d := Passed(init, T), After(init, T, rate);
      if last.at <= T {
        AllPassed(c, T);
      } else {
        assert Passed(c, T) == k && After(c, T, rate) == d + [last.(rate := rate)];
        hide After, Passed;
        forall j | 0 <= j < |c| - k ensures (d + [last.(rate := rate)])[j] == c[k + j].(rate := rate) {
          if j < |init| - k {
            assert init[k + j] == c[k + j];
          }
        }
      }
    }
  }

  /** A time load: the device reads `value` at `at` and runs on from there; loads and anchors
      scheduled later are forgotten. */
  function Load(c: seq<Anchor>, at: real, value: real, rate: real): seq<Anchor> {
    UpTo(c, at) + [Anchor(at, value, rate)]
  }

  lemma {:induction false} LoadWellformed(c: seq<Anchor>, at: real, value: real, rate: real)
    requires Wellformed(c) && rate > -1.0
    ensures Wellformed(Load(c, at, value, rate))
    ensures Load(c, at, value, rate)[0].at <= c[0].at
  {
    FilterIsCut(c, at, rate);
  }

  /** After the load the clock follows the loaded line for good; before it, every reading stands. */
  lemma {:induction false} LoadReadings(c: seq<Anchor>, at: real, value: real, rate: real, T: real)
    requires Wellformed(c) && rate > -1.0
    ensures T >= at ==> Reading(Load(c, at, value, rate), T) == Line(Anchor(at, value, rate), T)
    ensures T < at && c[0].at <= at ==> Reading(Load(c, at, value, rate), T) == Reading(c, T)
  {
    hide Line;
    var d := Load(c, at, value, rate);
    FilterIsCut(c, at, rate);
    LoadWellformed(c, at, value, rate);
    if T >= at {
      GoverningIs(d, T, |d| - 1);
    } else if c[0].at <= at {
      var g := Governing(c, T);
      assert c[g].at <= at;
      GoverningIs(d, T, g);
    }
  }

  /** A rate change now: a new anchor at the current reading, future anchors keep their values. */
  function Reanchor(c: seq<Anchor>, now: real, rate: real): seq<Anchor>
    requires |c| > 0
  {
    UpTo(c, now) + [Anchor(now, Reading(c, now), rate)] + After(c, now, rate)
  }

  lemma {:induction false} ReanchorWellformed(c: seq<Anchor>, now: real, rate: real)
    requires Wellformed(c) && rate > -1.0
    ensures Wellformed(Reanchor(c, now, rate))
    ensures c[0].at <= now ==> Reanchor(c, now, rate)[0] == c[0]
  {
    ReanchorShape(c, now, rate);
    hide Reanchor, Passed;
    var d, k := Reanchor(c, now, rate), Passed(c, now);
    forall i, j | 0 <= i < j < |d| ensures d[i].at <= d[j].at {
    }
  }

  /** The anchors passed, the new one, then the others re-rated. */
  lemma ReanchorShape(c: seq<Anchor>, now: real, rate: real)
    requires Wellformed(c)
    ensures var d, k := Reanchor(c, now, rate), Passed(c, now);
            && |d| == |c| + 1 && d[k] == Anchor(now, Reading(c, now), rate)
            && (forall i :: 0 <= i < k ==> d[i] == c[i])
            && (forall i :: k < i < |d| ==> d[i] == c[i - 1].(rate := rate))
    ensures forall i :: 0 <= i < Passed(c, now) ==> c[i].at <= now
  {
    FilterIsCut(c, now, rate);
    hide UpTo, After, Reading;
  }

  /** A rate change keeps the present reading and all earlier ones. */
  lemma {:induction false} ReanchorKeepsHistory(c: seq<Anchor>, now: real, rate: real, T: real)
    requires Wellformed(c) && rate > -1.0 && c[0].at <= now && T <= now
    ensures Reading(Reanchor(c, now, rate), T) == Reading(c, T)
  {
    var d, k := Reanchor(c, now, rate), Passed(c, now);
    FilterIsCut(c, now, rate);
    ReanchorWellformed(c, now, rate);
    if T == now {
      GoverningIs(d, now, k);
      assert Line(d[k], now) == Reading(c, now);
    } else {
      var g := Governing(c, T);
      assert g < k;
      assert d[g] == c[g];
      assert g + 1 < |d| ==> d[g + 1].at > T;
      GoverningIs(d, T, g);
    }
  }

  /** The reading after a rate change: the new rate from the present reading on, until the next
      scheduled anchor, whose value is kept. */
  lemma {:induction false} ReanchorFuture(c: seq<Anchor>, now: real, rate: real, T: real)
    requires Wellformed(c) && rate > -1.0 && c[0].at <= now && T >= now
    ensures Governing(c, T) < Passed(c, now)
            ==> Reading(Reanchor(c, now, rate), T) == Line(Anchor(now, Reading(c, now), rate), T)
    ensures Governing(c, T) >= Passed(c, now)
            ==> Reading(Reanchor(c, now, rate), T) == Line(c[Governing(c, T)].(rate := rate), T)
  {
    hide Line;
    var d, k, g := Reanchor(c, now, rate), Passed(c, now), Governing(c, T);
    FilterIsCut(c, now, rate);
    ReanchorWellformed(c, now, rate);
    if g < k {
      assert k + 1 < |d| ==> d[k + 1].at == c[k].at;
      GoverningIs(d, T, k);
    } else {
      assert d[g + 1] == c[g].(rate := rate);
      assert g + 2 < |d| ==> d[g + 2].at == c[g + 1].at;
      GoverningIs(d, T, g + 1);
    }
  }
}
