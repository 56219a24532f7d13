/** What an INI document means, and what editing one key does to it. `fold` is the case folding of key
    names; nothing is assumed about it. */
module IniSpec {
  import opened Results
  import opened IniText

  type Fold = string -> string

  // --- meaning ---------------------------------------------------------------------------------

  predicate MatchesKey(fold: Fold, line: string, k: string) {
    IsKeyLine(line) && fold(KeyText(line)) == k
  }

  predicate NamedHeader(line: string, section: string) {
    IsHeader(line) && SectionName(line) == section
  }

  /** The value of a key, reading the document from the top: in the first section of that name, the first
      line of that key. */
  function Lookup(fold: Fold, ls: seq<string>, section: string, k: string): Option<string>
    decreases |ls|
  {
    if ls == [] then None
    else if NamedHeader(ls[0], section) then Inside(fold, ls[1..], k)
    else Lookup(fold, ls[1..], section, k)
  }

  function Inside(fold: Fold, ls: seq<string>, k: string): Option<string>
    decreases |ls|
  {
    if ls == [] || IsHeader(ls[0]) then None
    else if MatchesKey(fold, ls[0], k) then Some(Strip(ValueText(ls[0])))
    else Inside(fold, ls[1..], k)
  }

  // --- where things are ------------------------------------------------------------------------

  /** First header of that name, or the length. */
  function HeaderNamed(ls: seq<string>, section: string, i: nat): (r: nat)
    requires i <= |ls|
    ensures i <= r <= |ls| && (r < |ls| ==> NamedHeader(ls[r], section))
    ensures forall j :: i <= j < r ==> !NamedHeader(ls[j], section)
    decreases |ls| - i
  {
    if i == |ls| || NamedHeader(ls[i], section) then i else HeaderNamed(ls, section, i + 1)
  }

  /** First header at or after i, or the length. */
  function NextHeader(ls: seq<string>, i: nat): (r: nat)
    requires i <= |ls|
    ensures i <= r <= |ls| && (r < |ls| ==> IsHeader(ls[r]))
    ensures forall j :: i <= j < r ==> !IsHeader(ls[j])
    decreases |ls| - i
  {
    if i == |ls| || IsHeader(ls[i]) then i else NextHeader(ls, i + 1)
  }

  /** First line of that key in [i, e), or e. */
  function KeyAt(fold: Fold, ls: seq<string>, k: string, i: nat, e: nat): (r: nat)
    requires i <= e <= |ls|
    ensures i <= r <= e && (r < e ==> MatchesKey(fold, ls[r], k))
    ensures forall j :: i <= j < r ==> !MatchesKey(fold, ls[j], k)
    decreases e - i
  {
    if i == e || MatchesKey(fold, ls[i], k) then i else KeyAt(fold, ls, k, i + 1, e)
  }

  /** End of the continuation lines that start at i. */
  function ContinuationEnd(ls: seq<string>, i: nat, e: nat): (r: nat)
    requires i <= e <= |ls|
    ensures i <= r <= e && (r < e ==> !IsContinuation(ls[r]))
    ensures forall j :: i <= j < r ==> IsContinuation(ls[j])
    decreases e - i
  {
    if i == e || !IsContinuation(ls[i]) then i else ContinuationEnd(ls, i + 1, e)
  }

  /** Last key line strictly between s and e, or s. */
  function LastKey(ls: seq<string>, s: nat, e: nat): (r: nat)
    requires s < e <= |ls|
    ensures s <= r < e && (r > s ==> IsKeyLine(ls[r]))
    ensures forall j :: r < j < e ==> !IsKeyLine(ls[j])
    decreases e
  {
    if e == s + 1 then s
    else if IsKeyLine(ls[e - 1]) then e - 1
    else LastKey(ls, s, e - 1)
  }

  /** Where a new key goes: after the last key and its continuation lines, else right after the header. */
  function InsertAt(ls: seq<string>, s: nat, e: nat): (p: nat)
    requires s < e <= |ls|
    ensures s < p <= e
  {
    var m := LastKey(ls, s, e);
    if m == s then s + 1 else ContinuationEnd(ls, m + 1, e)
  }

  /** The lines after `set`. */
  function SetLines(fold: Fold, ls: seq<string>, section: string, key: string, value: string): seq<string> {
    var s := HeaderNamed(ls, section, 0);
    if s == |ls| then
      ls + (if ls != [] && !Blank(ls[|ls| - 1]) then [""] else []) + ["[" + section + "]", FormatLine(key, value)]
    else
      var e := NextHeader(ls, s + 1);
      var i := KeyAt(fold, ls, fold(key), s + 1, e);
      if i < e then ls[..i] + [RewriteLine(ls[i], value)] + ls[ContinuationEnd(ls, i + 1, e)..]
      else
        var p := InsertAt(ls, s, e);
        ls[..p] + [FormatLine(key, value)] + ls[p..]
  }

  // --- uniqueness of the positions ---------------------------------------------------------------

  lemma HeaderNamedIs(ls: seq<string>, section: string, i: nat, r: nat)
    requires i <= r <= |ls| && (r < |ls| ==> NamedHeader(ls[r], section))
    requires forall j :: i <= j < r ==> !NamedHeader(ls[j], section)
    ensures HeaderNamed(ls, section, i) == r
  {
    hide NamedHeader;
  }

  lemma NextHeaderIs(ls: seq<string>, i: nat, r: nat)
    requires i <= r <= |ls| && (r < |ls| ==> IsHeader(ls[r]))
    requires forall j :: i <= j < r ==> !IsHeader(ls[j])
    ensures NextHeader(ls, i) == r
  {
    hide IsHeader;
  }

  lemma KeyAtIs(fold: Fold, ls: seq<string>, k: string, i: nat, e: nat, r: nat)
    requires i <= r <= e <= |ls| && (r < e ==> MatchesKey(fold, ls[r], k))
    requires forall j :: i <= j < r ==> !MatchesKey(fold, ls[j], k)
    ensures KeyAt(fold, ls, k, i, e) == r
  {
    hide MatchesKey;
  }

  // --- reading past lines ------------------------------------------------------------------------

  ghost predicate NoHeaders(ls: seq<string>) {
    forall i :: 0 <= i < |ls| ==> !IsHeader(ls[i])
  }

  /** Lines that do not concern key k. */
  ghost predicate Neutral(fold: Fold, ls: seq<string>, k: string) {
    forall i :: 0 <= i < |ls| ==> !IsHeader(ls[i]) && !MatchesKey(fold, ls[i], k)
  }

  lemma {:induction false} LookupSkips(fold: Fold, a: seq<string>, x: seq<string>, section: string, k: string)
    requires forall i :: 0 <= i < |a| ==> !NamedHeader(a[i], section)
    ensures Lookup(fold, a + x, section, k) == Lookup(fold, x, section, k)
    decreases |a|
  {
    hide NamedHeader, Inside;
    if a == [] {
      assert a + x == x;
    } else {
      assert (a + x)[1..] == a[1..] + x;
      LookupSkips(fold, a[1..], x, section, k);
    }
  }

  lemma {:induction false} InsideSkips(fold: Fold, a: seq<string>, x: seq<string>, k: string)
    requires Neutral(fold, a, k)
    ensures Inside(fold, a + x, k) == Inside(fold, x, k)
    decreases |a|
  {
    hide IsHeader, MatchesKey;
    if a == [] {
      assert a + x == x;
    } else {
      assert (a + x)[1..] == a[1..] + x;
      InsideSkips(fold, a[1..], x, k);
    }
  }

  /** Neutral lines in the middle of a section can be exchanged. */
  lemma {:induction false} InsideSplice(fold: Fold, a: seq<string>, u: seq<string>, v: seq<string>, x: seq<string>, k: string)
    requires Neutral(fold, u, k) && Neutral(fold, v, k)
    ensures Inside(fold, a + u + x, k) == Inside(fold, a + v + x, k)
    decreases |a|
  {
    hide IsHeader, MatchesKey;
    if a == [] {
      assert a + u + x == u + x && a + v + x == v + x;
      InsideSkips(fold, u, x, k);
      InsideSkips(fold, v, x, k);
    } else {
      assert (a + u + x)[1..] == a[1..] + u + x && (a + v + x)[1..] == a[1..] + v + x;
      InsideSplice(fold, a[1..], u, v, x, k);
    }
  }

  lemma {:induction false} InsideStops(fold: Fold, a: seq<string>, h: string, x: seq<string>, y: seq<string>, k: string)
    requires IsHeader(h)
    ensures Inside(fold, a + [h] + x, k) == Inside(fold, a + [h] + y, k)
    decreases |a|
  {
    hide IsHeader, MatchesKey;
    if a != [] {
      assert (a + [h] + x)[1..] == a[1..] + [h] + x && (a + [h] + y)[1..] == a[1..] + [h] + y;
      InsideStops(fold, a[1..], h, x, y, k);
    }
  }

  /** What another section contains does not matter. */
  lemma {:induction false} OtherSection(fold: Fold, a: seq<string>, h: string, x: seq<string>, y: seq<string>, p: seq<string>, section: string, k: string)
    requires IsHeader(h) && SectionName(h) != section && NoHeaders(x) && NoHeaders(y)
    ensures Lookup(fold, a + [h] + (x + p), section, k) == Lookup(fold, a + [h] + (y + p), section, k)
    decreases |a|
  {
    hide IsHeader, SectionName, Inside;
    if a == [] {
      LookupPast(fold, h, x, p, section, k);
      LookupPast(fold, h, y, p, section, k);
      assert a + [h] + (x + p) == [h] + x + p && a + [h] + (y + p) == [h] + y + p;
    } else {
      assert (a + [h] + (x + p))[1..] == a[1..] + [h] + (x + p);
      assert (a + [h] + (y + p))[1..] == a[1..] + [h] + (y + p);
      if NamedHeader(a[0], section) {
        InsideStops(fold, a[1..], h, x + p, y + p, k);
      } else {
        OtherSection(fold, a[1..], h, x, y, p, section, k);
      }
    }
  }

  lemma LookupPast(fold: Fold, h: string, x: seq<string>, p: seq<string>, section: string, k: string)
    requires IsHeader(h) && SectionName(h) != section && NoHeaders(x)
    ensures Lookup(fold, [h] + x + p, section, k) == Lookup(fold, p, section, k)
  {
    hide IsHeader, SectionName, Lookup;
    var a := [h] + x;
    forall i | 0 <= i < |a| ensures !NamedHeader(a[i], section) {
      assert i > 0 ==> a[i] == x[i - 1];
    }
    LookupSkips(fold, a, p, section, k);
  }

  /** The meaning, by position. */
  lemma {:induction false} LookupAt(fold: Fold, ls: seq<string>, section: string, k: string)
    ensures var s := HeaderNamed(ls, section, 0);
            Lookup(fold, ls, section, k) ==
            if s == |ls| then None
            else
              var e := NextHeader(ls, s + 1);
              var i := KeyAt(fold, ls, k, s + 1, e);
              if i < e then Some(Strip(ValueText(ls[i]))) else None
  {
    hide *;
    var s := HeaderNamed(ls, section, 0);
    assert ls == ls[..s] + ls[s..];
    LookupSkips(fold, ls[..s], ls[s..], section, k);
    LookupFirst(fold, ls[s..], section, k);
    if s < |ls| {
      assert ls[s..][1..] == ls[s + 1..];
      InsideAt(fold, ls, s + 1, k);
    }
  }

  lemma LookupFirst(fold: Fold, ls: seq<string>, section: string, k: string)
    ensures ls == [] ==> Lookup(fold, ls, section, k) == None
    ensures ls != [] && NamedHeader(ls[0], section) ==> Lookup(fold, ls, section, k) == Inside(fold, ls[1..], k)
  {
    hide NamedHeader, Inside;
  }

  lemma InsideAt(fold: Fold, ls: seq<string>, j: nat, k: string)
    requires j <= |ls|
    ensures var e := NextHeader(ls, j);
            var i := KeyAt(fold, ls, k, j, e);
            Inside(fold, ls[j..], k) == if i < e then Some(Strip(ValueText(ls[i]))) else None
  {
    hide IsHeader, MatchesKey, Strip, ValueText;
    var e := NextHeader(ls, j);
    var i := KeyAt(fold, ls, k, j, e);
    assert ls[j..] == ls[j..i] + ls[i..];
    InsideSkips(fold, ls[j..i], ls[i..], k);
    assert i < |ls| ==> ls[i..][0] == ls[i];
    hide NextHeader, KeyAt;
  }
}
