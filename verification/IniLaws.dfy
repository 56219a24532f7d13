/** The laws of the INI editor. */
module IniLaws {
  import opened Results
  import opened IniText
  import opened IniSpec

  /** The lines `set` replaces: the key's line and its continuation lines, or none at the insertion point. */
  function Own(fold: Fold, ls: seq<string>, section: string, key: string): (r: (nat, nat))
    ensures r.0 <= r.1 <= |ls|
  {
    var s := HeaderNamed(ls, section, 0);
    if s == |ls| then (|ls|, |ls|)
    else
      var e := NextHeader(ls, s + 1);
      var i := KeyAt(fold, ls, fold(key), s + 1, e);
      if i < e then (i, ContinuationEnd(ls, i + 1, e)) else (InsertAt(ls, s, e), InsertAt(ls, s, e))
  }

  // --- what set writes -------------------------------------------------------------------------

  /** The line that holds the value after `set`. */
  ghost predicate Written(fold: Fold, line: string, key: string, value: string) {
    !IsHeader(line) && !IsContinuation(line) && MatchesKey(fold, line, fold(key)) && Strip(ValueText(line)) == Strip(value)
  }

  lemma FormatWrites(fold: Fold, key: string, value: string)
    requires WellFormedKey(key)
    ensures Written(fold, FormatLine(key, value), key, value)
  {
    FormatHolds(key, value);
    KeyLineIsNoHeader(FormatLine(key, value));
    hide WellFormedKey, FormatLine, IsKeyLine, IsHeader, IsContinuation, KeyText, ValueText, Strip;
  }

  lemma RewriteWrites(fold: Fold, line: string, key: string, value: string)
    requires MatchesKey(fold, line, fold(key))
    ensures Written(fold, RewriteLine(line, value), key, value)
  {
    RewriteHolds(line, value);
    KeyLineIsNoHeader(RewriteLine(line, value));
    hide RewriteLine, IsKeyLine, IsHeader, IsContinuation, KeyText, ValueText, Strip;
  }

  /** The line `set` puts in place of the key's own lines in a section that exists. */
  function NewLine(fold: Fold, ls: seq<string>, section: string, key: string, value: string): string
    requires HeaderNamed(ls, section, 0) < |ls|
  {
    var s := HeaderNamed(ls, section, 0);
    var e := NextHeader(ls, s + 1);
    var i := KeyAt(fold, ls, fold(key), s + 1, e);
    if i < e then RewriteLine(ls[i], value) else FormatLine(key, value)
  }

  lemma NewLineWrites(fold: Fold, ls: seq<string>, section: string, key: string, value: string)
    requires WellFormedKey(key) && HeaderNamed(ls, section, 0) < |ls|
    ensures Written(fold, NewLine(fold, ls, section, key, value), key, value)
  {
    hide WellFormedKey, Written, FormatLine, RewriteLine, IsHeader, MatchesKey, NamedHeader;
    var s := HeaderNamed(ls, section, 0);
    var e := NextHeader(ls, s + 1);
    var i := KeyAt(fold, ls, fold(key), s + 1, e);
    if i < e {
      RewriteWrites(fold, ls[i], key, value);
    } else {
      FormatWrites(fold, key, value);
    }
  }

  /** The section around the key's own lines. */
  ghost predicate Parts(fold: Fold, ls: seq<string>, section: string, key: string, s: nat, e: nat, i: nat, j: nat) {
    && s < i <= j <= e <= |ls|
    && NamedHeader(ls[s], section)
    && (forall m :: 0 <= m < s ==> !NamedHeader(ls[m], section))
    && (forall m :: s < m < e ==> !IsHeader(ls[m]))
    && (e < |ls| ==> IsHeader(ls[e]))
    && (forall m :: s < m < i ==> !MatchesKey(fold, ls[m], fold(key)))
    && (i < j ==> MatchesKey(fold, ls[i], fold(key)))
    && (i == j ==> forall m :: s < m < e ==> !MatchesKey(fold, ls[m], fold(key)))
    && (forall m :: i < m < j ==> IsContinuation(ls[m]))
  }

  lemma OwnParts(fold: Fold, ls: seq<string>, section: string, key: string)
    requires HeaderNamed(ls, section, 0) < |ls|
    ensures var s, o := HeaderNamed(ls, section, 0), Own(fold, ls, section, key);
            Parts(fold, ls, section, key, s, NextHeader(ls, s + 1), o.0, o.1)
  {
    hide IsHeader, SectionName, IsContinuation, MatchesKey, IsKeyLine;
  }

  /** Every line outside the key's own lines survives `set`, in order. */
  lemma {:induction false} LinesSurvive(fold: Fold, ls: seq<string>, section: string, key: string, value: string)
    ensures var o, ls' := Own(fold, ls, section, key), SetLines(fold, ls, section, key, value);
            && (o.0 < o.1 ==> MatchesKey(fold, ls[o.0], fold(key)))
            && (forall m :: o.0 < m < o.1 ==> IsContinuation(ls[m]))
            && |ls'| > o.0 + |ls| - o.1
            && ls'[..o.0] == ls[..o.0] && ls'[|ls'| - (|ls| - o.1)..] == ls[o.1..]
            && (HeaderNamed(ls, section, 0) < |ls| ==> ls' == ls[..o.0] + [NewLine(fold, ls, section, key, value)] + ls[o.1..])
  {
    hide *;
    var o := Own(fold, ls, section, key);
    if HeaderNamed(ls, section, 0) < |ls| {
      OwnLines(fold, ls, section, key);
      SplicedIs(fold, ls, section, key, value);
      Spliced(ls, o.0, o.1, [NewLine(fold, ls, section, key, value)]);
    } else {
      var mid := AppendedIs(fold, ls, section, key, value);
      Spliced(ls, |ls|, |ls|, mid);
    }
  }

  /** What replacing the lines from i up to j leaves of a document. */
  lemma Spliced(ls: seq<string>, i: nat, j: nat, mid: seq<string>)
    requires i <= j <= |ls| && mid != []
    ensures var ls' := ls[..i] + mid + ls[j..];
            |ls'| > i + |ls| - j && ls'[..i] == ls[..i] && ls'[|ls'| - (|ls| - j)..] == ls[j..]
  {
  }

  lemma OwnLines(fold: Fold, ls: seq<string>, section: string, key: string)
    requires HeaderNamed(ls, section, 0) < |ls|
    ensures var o := Own(fold, ls, section, key);
            && (o.0 < o.1 ==> MatchesKey(fold, ls[o.0], fold(key)))
            && (forall m :: o.0 < m < o.1 ==> IsContinuation(ls[m]))
  {
    OwnParts(fold, ls, section, key);
    hide Own, HeaderNamed, NextHeader, NamedHeader, IsHeader, MatchesKey, IsContinuation;
  }

  lemma SplicedIs(fold: Fold, ls: seq<string>, section: string, key: string, value: string)
    requires HeaderNamed(ls, section, 0) < |ls|
    ensures var o := Own(fold, ls, section, key);
            SetLines(fold, ls, section, key, value) == ls[..o.0] + [NewLine(fold, ls, section, key, value)] + ls[o.1..]
  {
    hide HeaderNamed, NextHeader, KeyAt, ContinuationEnd, InsertAt, IsHeader, SectionName, IsContinuation, IsKeyLine, KeyText, FormatLine, RewriteLine, Blank;
  }

  lemma AppendedIs(fold: Fold, ls: seq<string>, section: string, key: string, value: string) returns (mid: seq<string>)
    requires HeaderNamed(ls, section, 0) == |ls|
    ensures Own(fold, ls, section, key) == (|ls|, |ls|)
    ensures mid != [] && SetLines(fold, ls, section, key, value) == ls[..|ls|] + mid + ls[|ls|..]
  {
    hide HeaderNamed, FormatLine, Blank;
    mid := (if ls != [] && !Blank(ls[|ls| - 1]) then [""] else []) + ["[" + section + "]", FormatLine(key, value)];
    assert ls[..|ls|] == ls && ls[|ls|..] == [];
  }

  /** `set` in a section that exists: n takes the place of the lines from i up to j. */
  lemma InPlace(fold: Fold, ls: seq<string>, section: string, key: string, value: string)
    returns (s: nat, e: nat, i: nat, j: nat, n: string)
    requires WellFormedKey(key) && HeaderNamed(ls, section, 0) < |ls|
    ensures Parts(fold, ls, section, key, s, e, i, j) && Written(fold, n, key, value)
    ensures SetLines(fold, ls, section, key, value) == ls[..i] + [n] + ls[j..]
    ensures s == HeaderNamed(ls, section, 0) && e == NextHeader(ls, s + 1) && (i, j) == Own(fold, ls, section, key)
    ensures n == NewLine(fold, ls, section, key, value)
  {
    hide *;
    OwnParts(fold, ls, section, key);
    LinesSurvive(fold, ls, section, key, value);
    NewLineWrites(fold, ls, section, key, value);
    s := HeaderNamed(ls, section, 0);
    e := NextHeader(ls, s + 1);
    var o := Own(fold, ls, section, key);
    i, j := o.0, o.1;
    n := NewLine(fold, ls, section, key, value);
  }

  // --- get after set -----------------------------------------------------------------------------

  lemma {:induction false} LookupFound(fold: Fold, a: seq<string>, h: string, b: seq<string>, n: string, x: seq<string>, section: string, k: string)
    requires (forall i :: 0 <= i < |a| ==> !NamedHeader(a[i], section)) && NamedHeader(h, section)
    requires Neutral(fold, b, k) && !IsHeader(n) && MatchesKey(fold, n, k)
    ensures Lookup(fold, a + ([h] + (b + ([n] + x))), section, k) == Some(Strip(ValueText(n)))
  {
    hide IsHeader, SectionName, NamedHeader, MatchesKey, Strip, ValueText;
    LookupSkips(fold, a, [h] + (b + ([n] + x)), section, k);
    assert ([h] + (b + ([n] + x)))[1..] == b + ([n] + x);
    InsideSkips(fold, b, [n] + x, k);
  }

  /** `get` returns the value just set, trimmed. */
  lemma {:induction false} GetAfterSet(fold: Fold, ls: seq<string>, section: string, key: string, value: string)
    requires WellFormedKey(key) && WellFormedSection(section)
    ensures Lookup(fold, SetLines(fold, ls, section, key, value), section, fold(key)) == Some(Strip(value))
  {
    hide *;
    if HeaderNamed(ls, section, 0) < |ls| {
      var s, e, i, j, n := InPlace(fold, ls, section, key, value);
      ReadBack(fold, ls, section, key, value, s, e, i, j, n);
    } else {
      AppendedReads(fold, ls, section, key, value);
    }
  }

  lemma ReadBack(fold: Fold, ls: seq<string>, section: string, key: string, value: string, s: nat, e: nat, i: nat, j: nat, n: string)
    requires Parts(fold, ls, section, key, s, e, i, j) && Written(fold, n, key, value)
    ensures Lookup(fold, ls[..i] + [n] + ls[j..], section, fold(key)) == Some(Strip(value))
  {
    hide Lookup, IsHeader, NamedHeader, MatchesKey, IsContinuation, ValueText, Strip;
    LookupFound(fold, ls[..s], ls[s], ls[s + 1..i], n, ls[j..], section, fold(key));
    hide *;
    assert ls[..i] + [n] + ls[j..] == ls[..s] + ([ls[s]] + (ls[s + 1..i] + ([n] + ls[j..])));
  }

  /** The blank line `set` puts before a new section. */
  function Padding(ls: seq<string>): seq<string> {
    if ls != [] && !Blank(ls[|ls| - 1]) then [""] else []
  }

  lemma BlankLineIsNothing(fold: Fold, section: string, k: string)
    ensures !IsHeader("") && !NamedHeader("", section) && !IsKeyLine("") && !IsContinuation("")
  {
  }

  lemma AppendedReads(fold: Fold, ls: seq<string>, section: string, key: string, value: string)
    requires WellFormedKey(key) && WellFormedSection(section) && HeaderNamed(ls, section, 0) == |ls|
    ensures Lookup(fold, SetLines(fold, ls, section, key, value), section, fold(key)) == Some(Strip(value))
  {
    var h, n, pad := "[" + section + "]", FormatLine(key, value), Padding(ls);
    HeaderReads(section);
    FormatWrites(fold, key, value);
    BlankLineIsNothing(fold, section, fold(key));
    hide WellFormedKey, WellFormedSection, FormatLine, IsKeyLine, IsHeader, SectionName, MatchesKey, ValueText, Strip, Blank, IsContinuation, Lookup;
    LookupFound(fold, ls + pad, h, [], n, [], section, fold(key));
    assert ls + pad + [h, n] == ls + pad + ([h] + ([] + ([n] + [])));
  }

  // --- everything else is unchanged ----------------------------------------------------------------

  /** `get` of every other key, in every section, is unchanged. */
  lemma {:induction false} OthersUnchanged(fold: Fold, ls: seq<string>, section: string, key: string, value: string, section2: string, k2: string)
    requires WellFormedKey(key) && WellFormedSection(section)
    requires section2 != section || k2 != fold(key)
    ensures Lookup(fold, SetLines(fold, ls, section, key, value), section2, k2) == Lookup(fold, ls, section2, k2)
  {
    hide *;
    if HeaderNamed(ls, section, 0) < |ls| {
      var s, e, i, j, n := InPlace(fold, ls, section, key, value);
      if section2 != section {
        OtherSectionUnchanged(fold, ls, section, key, value, s, e, i, j, n, section2, k2);
      } else {
        OtherKeyUnchanged(fold, ls, section, key, value, s, e, i, j, n, k2);
      }
    } else {
      AppendKeepsOthers(fold, ls, section, key, value, section2, k2);
    }
  }

  lemma OtherSectionUnchanged(fold: Fold, ls: seq<string>, section: string, key: string, value: string, s: nat, e: nat, i: nat, j: nat, n: string, section2: string, k2: string)
    requires Parts(fold, ls, section, key, s, e, i, j) && Written(fold, n, key, value) && section2 != section
    ensures Lookup(fold, ls[..i] + [n] + ls[j..], section2, k2) == Lookup(fold, ls, section2, k2)
  {
    hide IsHeader, SectionName, MatchesKey, ValueText, Strip, IsContinuation, Lookup;
    var x, y, p := ls[s + 1..e], ls[s + 1..i] + [n] + ls[j..e], ls[e..];
    assert NoHeaders(x);
    assert NoHeaders(y) by {
      forall m | 0 <= m < |y| ensures !IsHeader(y[m]) {
        if m < i - s - 1 { assert y[m] == ls[s + 1 + m]; }
        else if m > i - s - 1 { assert y[m] == ls[j + m - (i - s)]; }
      }
    }
    OtherSection(fold, ls[..s], ls[s], x, y, p, section2, k2);
    assert ls == ls[..s] + [ls[s]] + (x + p);
    assert ls[..i] + [n] + ls[j..] == ls[..s] + [ls[s]] + (y + p);
  }

  lemma OtherKeyUnchanged(fold: Fold, ls: seq<string>, section: string, key: string, value: string, s: nat, e: nat, i: nat, j: nat, n: string, k2: string)
    requires Parts(fold, ls, section, key, s, e, i, j) && Written(fold, n, key, value) && k2 != fold(key)
    ensures Lookup(fold, ls[..i] + [n] + ls[j..], section, k2) == Lookup(fold, ls, section, k2)
  {
    hide *;
    PartsOfSection(fold, ls, section, key, value, s, e, i, j, n, k2);
    var h, a, b, x := ls[s], ls[..s], ls[s + 1..i], ls[j..];
    InsideSplice(fold, b, ls[i..j], [n], x, k2);
    LookupSkips(fold, a, [h] + (b + ls[i..j] + x), section, k2);
    LookupSkips(fold, a, [h] + (b + [n] + x), section, k2);
    LookupEnters(fold, h, b + ls[i..j] + x, section, k2);
    LookupEnters(fold, h, b + [n] + x, section, k2);
    assert ls == a + ([h] + (b + ls[i..j] + x));
    assert ls[..i] + [n] + ls[j..] == a + ([h] + (b + [n] + x));
  }

  lemma PartsOfSection(fold: Fold, ls: seq<string>, section: string, key: string, value: string, s: nat, e: nat, i: nat, j: nat, n: string, k2: string)
    requires Parts(fold, ls, section, key, s, e, i, j) && Written(fold, n, key, value) && k2 != fold(key)
    ensures s < i <= j <= |ls| && NamedHeader(ls[s], section) && Neutral(fold, [n], k2) && Neutral(fold, ls[i..j], k2)
    ensures forall m :: 0 <= m < |ls[..s]| ==> !NamedHeader(ls[..s][m], section)
  {
    OwnNeutral(fold, ls, section, key, s, e, i, j, k2);
    hide IsHeader, SectionName, KeyText, ValueText, Strip, IsContinuation, IsKeyLine;
  }

  lemma LookupEnters(fold: Fold, h: string, x: seq<string>, section: string, k: string)
    requires NamedHeader(h, section)
    ensures Lookup(fold, [h] + x, section, k) == Inside(fold, x, k)
  {
    hide NamedHeader, Inside;
    assert ([h] + x)[1..] == x;
  }

  lemma OwnNeutral(fold: Fold, ls: seq<string>, section: string, key: string, s: nat, e: nat, i: nat, j: nat, k2: string)
    requires Parts(fold, ls, section, key, s, e, i, j) && k2 != fold(key)
    ensures Neutral(fold, ls[i..j], k2)
  {
    hide IsHeader, SectionName, KeyText, ValueText;
    forall m | 0 <= m < |ls[i..j]| ensures !IsHeader(ls[i..j][m]) && !MatchesKey(fold, ls[i..j][m], k2) {
      if m > 0 {
        assert IsContinuation(ls[i + m]);
        ContinuationIsNoKey(ls[i + m]);
      }
    }
  }

  lemma ContinuationIsNoKey(line: string)
    requires IsContinuation(line)
    ensures !IsKeyLine(line)
  {
    if line == "" {
      StripOfEmpty();
    }
  }

  lemma AppendKeepsOthers(fold: Fold, ls: seq<string>, section: string, key: string, value: string, section2: string, k2: string)
    requires WellFormedKey(key) && WellFormedSection(section) && HeaderNamed(ls, section, 0) == |ls|
    requires section2 != section || k2 != fold(key)
    ensures Lookup(fold, SetLines(fold, ls, section, key, value), section2, k2) == Lookup(fold, ls, section2, k2)
  {
    var h, n, pad := "[" + section + "]", FormatLine(key, value), Padding(ls);
    HeaderReads(section);
    FormatWrites(fold, key, value);
    BlankLineIsNothing(fold, section2, k2);
    WrittenElsewhere(fold, h, n, section, key, value, section2, k2);
    hide *;
    SetAppends(fold, ls, section, key, value);
    if section2 != section {
      InsideOfTail(fold, pad, h, n, k2);
      TailHasNot(fold, pad, h, n, section2, k2);
      AppendBehind(fold, ls, pad + [h, n], section2, k2);
      assert ls + pad + [h, n] == ls + (pad + [h, n]);
    } else {
      NewSectionHasNot(fold, ls, pad, h, n, section, k2);
    }
  }

  lemma WrittenElsewhere(fold: Fold, h: string, n: string, section: string, key: string, value: string, section2: string, k2: string)
    requires IsHeader(h) && SectionName(h) == section && Written(fold, n, key, value)
    ensures !IsHeader(n) && !NamedHeader(n, section2) && NamedHeader(h, section)
    ensures section2 != section ==> !NamedHeader(h, section2)
    ensures MatchesKey(fold, n, k2) <==> k2 == fold(key)
  {
    hide IsHeader, SectionName, IsKeyLine, KeyText, ValueText, Strip, IsContinuation;
  }

  lemma SetAppends(fold: Fold, ls: seq<string>, section: string, key: string, value: string)
    requires HeaderNamed(ls, section, 0) == |ls|
    ensures SetLines(fold, ls, section, key, value) == ls + Padding(ls) + ["[" + section + "]", FormatLine(key, value)]
    ensures Padding(ls) == [] || Padding(ls) == [""]
    ensures forall i :: 0 <= i < |ls| ==> !NamedHeader(ls[i], section)
  {
    hide FormatLine, Blank, NamedHeader;
  }

  lemma TailHasNot(fold: Fold, pad: seq<string>, h: string, n: string, section: string, k: string)
    requires (pad == [] || pad == [""]) && !NamedHeader("", section) && !NamedHeader(h, section) && !NamedHeader(n, section)
    ensures Lookup(fold, pad + [h, n], section, k) == None
  {
    hide NamedHeader, Lookup;
    LookupSkips(fold, pad + [h, n], [], section, k);
    assert pad + [h, n] + [] == pad + [h, n];
    EmptyHasNot(fold, section, k);
  }

  lemma EmptyHasNot(fold: Fold, section: string, k: string)
    ensures Lookup(fold, [], section, k) == None && Inside(fold, [], k) == None
  {
  }

  lemma NewSectionHasNot(fold: Fold, ls: seq<string>, pad: seq<string>, h: string, n: string, section: string, k: string)
    requires (forall i :: 0 <= i < |ls| ==> !NamedHeader(ls[i], section)) && (pad == [] || pad == [""]) && !NamedHeader("", section)
    requires NamedHeader(h, section) && !IsHeader(n) && !MatchesKey(fold, n, k)
    ensures Lookup(fold, ls + pad + [h, n], section, k) == None && Lookup(fold, ls, section, k) == None
  {
    hide NamedHeader, IsHeader, MatchesKey, Lookup, Inside;
    EmptyHasNot(fold, section, k);
    LookupSkips(fold, ls, [], section, k);
    assert ls + [] == ls;
    LookupSkips(fold, ls + pad, [h] + [n], section, k);
    LookupEnters(fold, h, [n], section, k);
    InsideSkips(fold, [n], [], k);
    assert [n] + [] == [n] && [h] + [n] == [h, n];
  }

  lemma InsideOfTail(fold: Fold, pad: seq<string>, h: string, n: string, k: string)
    requires IsHeader(h) && (pad == [] || pad == [""]) && !IsHeader("") && !IsKeyLine("")
    ensures Inside(fold, pad + [h, n], k) == None
  {
    hide IsHeader, IsKeyLine;
    if pad == [""] {
      assert (pad + [h, n])[1..] == [h, n];
    }
  }

  /** Lines that hold nothing for the key, behind the document. */
  lemma {:induction false} AppendBehind(fold: Fold, ls: seq<string>, tail: seq<string>, section: string, k: string)
    requires Lookup(fold, tail, section, k) == None && Inside(fold, tail, k) == None
    ensures Lookup(fold, ls + tail, section, k) == Lookup(fold, ls, section, k)
    decreases |ls|
  {
    hide NamedHeader, IsHeader, MatchesKey;
    if ls == [] {
      assert ls + tail == tail;
    } else {
      assert (ls + tail)[1..] == ls[1..] + tail;
      if NamedHeader(ls[0], section) {
        InsideBehind(fold, ls[1..], tail, k);
      } else {
        AppendBehind(fold, ls[1..], tail, section, k);
      }
    }
  }

  lemma {:induction false} InsideBehind(fold: Fold, ls: seq<string>, tail: seq<string>, k: string)
    requires Inside(fold, tail, k) == None
    ensures Inside(fold, ls + tail, k) == Inside(fold, ls, k)
    decreases |ls|
  {
    hide IsHeader, MatchesKey;
    if ls == [] {
      assert ls + tail == tail;
    } else {
      assert (ls + tail)[1..] == ls[1..] + tail;
      InsideBehind(fold, ls[1..], tail, k);
    }
  }

  // --- setting twice -----------------------------------------------------------------------------

  /** The new key is put right before an indented line that belonged to no key: it becomes a continuation
      line of the new key. */
  predicate Adopts(fold: Fold, ls: seq<string>, section: string, key: string) {
    var s, o := HeaderNamed(ls, section, 0), Own(fold, ls, section, key);
    s < |ls| && o.0 == o.1 < NextHeader(ls, s + 1) && IsContinuation(ls[o.1])
  }

  /** `set` twice is `set` once, exactly when the value has no leading blanks and the new key adopts no
      orphaned line. */
  lemma {:induction false} SetTwice(fold: Fold, ls: seq<string>, section: string, key: string, value: string)
    requires WellFormedKey(key) && WellFormedSection(section)
    ensures var ls' := SetLines(fold, ls, section, key, value);
            SetLines(fold, ls', section, key, value) == ls' <==> LeadingSpace(value) == 0 && !Adopts(fold, ls, section, key)
  {
    hide *;
    if HeaderNamed(ls, section, 0) < |ls| {
      var s, e, i, j, n := InPlace(fold, ls, section, key, value);
      NewLineTwice(fold, ls, section, key, value);
      OwnEnds(fold, ls, section, key);
      AdoptsIs(fold, ls, section, key);
      SpliceTwice(fold, ls, section, key, value, s, e, i, j, n);
    } else {
      AppendTwice(fold, ls, section, key, value);
      NothingAdopted(fold, ls, section, key);
    }
  }

  lemma NothingAdopted(fold: Fold, ls: seq<string>, section: string, key: string)
    requires HeaderNamed(ls, section, 0) == |ls|
    ensures !Adopts(fold, ls, section, key)
  {
  }

  lemma AdoptsIs(fold: Fold, ls: seq<string>, section: string, key: string)
    requires HeaderNamed(ls, section, 0) < |ls|
    ensures var s, o := HeaderNamed(ls, section, 0), Own(fold, ls, section, key);
            Adopts(fold, ls, section, key) <==> o.0 == o.1 < NextHeader(ls, s + 1) && IsContinuation(ls[o.1])
  {
    hide IsHeader, IsContinuation, MatchesKey;
  }

  /** The own lines of a key that exists end at a line that is no continuation line. */
  lemma OwnEnds(fold: Fold, ls: seq<string>, section: string, key: string)
    requires HeaderNamed(ls, section, 0) < |ls|
    ensures var s, o := HeaderNamed(ls, section, 0), Own(fold, ls, section, key);
            o.0 < o.1 < NextHeader(ls, s + 1) ==> !IsContinuation(ls[o.1])
  {
    hide IsHeader, SectionName, IsContinuation, MatchesKey, IsKeyLine;
  }

  lemma NewLineTwice(fold: Fold, ls: seq<string>, section: string, key: string, value: string)
    requires WellFormedKey(key) && HeaderNamed(ls, section, 0) < |ls|
    ensures var n := NewLine(fold, ls, section, key, value);
            IsKeyLine(n) && (RewriteLine(n, value) == n <==> LeadingSpace(value) == 0)
  {
    hide HeaderNamed, NextHeader, KeyAt, WellFormedKey, IsHeader, FormatLine, RewriteLine, LeadingSpace, IsKeyLine, SectionName, KeyText;
    var s := HeaderNamed(ls, section, 0);
    var e := NextHeader(ls, s + 1);
    var i := KeyAt(fold, ls, fold(key), s + 1, e);
    if i < e {
      RewriteTwice(ls[i], value);
    } else {
      RewriteFormatted(key, value);
    }
  }

  lemma {:induction false} SpliceTwice(fold: Fold, ls: seq<string>, section: string, key: string, value: string, s: nat, e: nat, i: nat, j: nat, n: string)
    requires Parts(fold, ls, section, key, s, e, i, j) && Written(fold, n, key, value)
    requires IsKeyLine(n) && (RewriteLine(n, value) == n <==> LeadingSpace(value) == 0)
    requires i < j < e ==> !IsContinuation(ls[j])
    ensures var ls' := ls[..i] + [n] + ls[j..];
            SetLines(fold, ls', section, key, value) == ls' <==> LeadingSpace(value) == 0 && !(i == j < e && IsContinuation(ls[j]))
  {
    hide *;
    PartsBounds(fold, ls, section, key, s, e, i, j);
    PositionsAfter(fold, ls, section, key, value, s, e, i, j, n);
    var ls', e' := ls[..i] + [n] + ls[j..], e - (j - i) + 1;
    var c := ContinuationEnd(ls', i + 1, e');
    RewritesAgain(fold, ls', section, key, value, s, e', i);
    assert i + 1 < e' ==> ls'[i + 1] == ls[j];
    Replaced(ls', i, c, RewriteLine(n, value));
  }

  lemma PartsBounds(fold: Fold, ls: seq<string>, section: string, key: string, s: nat, e: nat, i: nat, j: nat)
    requires Parts(fold, ls, section, key, s, e, i, j)
    ensures s < i <= j <= e <= |ls|
  {
  }

  /** Replacing the lines from i up to c by one line changes nothing only if they are that line. */
  lemma Replaced(ls: seq<string>, i: nat, c: nat, line: string)
    requires i < c <= |ls|
    ensures ls[..i] + [line] + ls[c..] == ls <==> c == i + 1 && line == ls[i]
  {
    var r := ls[..i] + [line] + ls[c..];
    assert |r| == |ls| - (c - i) + 1 && r[i] == line;
    if c == i + 1 && line == ls[i] {
      assert r == ls;
    }
  }

  lemma RewritesAgain(fold: Fold, ls: seq<string>, section: string, key: string, value: string, s: nat, e: nat, i: nat)
    requires s < i < e <= |ls| && HeaderNamed(ls, section, 0) == s && NextHeader(ls, s + 1) == e && KeyAt(fold, ls, fold(key), s + 1, e) == i
    ensures IsKeyLine(ls[i])
    ensures var c := ContinuationEnd(ls, i + 1, e);
            && SetLines(fold, ls, section, key, value) == ls[..i] + [RewriteLine(ls[i], value)] + ls[c..]
            && (c == i + 1 <==> i + 1 == e || !IsContinuation(ls[i + 1]))
  {
    hide *;
    ThereIsAKey(fold, ls, key, s, e, i);
    InPlaceIs(fold, ls, section, key, value, s, e, i);
  }

  lemma ThereIsAKey(fold: Fold, ls: seq<string>, key: string, s: nat, e: nat, i: nat)
    requires s < i < e <= |ls| && KeyAt(fold, ls, fold(key), s + 1, e) == i
    ensures IsKeyLine(ls[i])
  {
    hide KeyAt, IsKeyLine, KeyText;
  }

  lemma InPlaceIs(fold: Fold, ls: seq<string>, section: string, key: string, value: string, s: nat, e: nat, i: nat)
    requires s < i < e <= |ls| && HeaderNamed(ls, section, 0) == s && NextHeader(ls, s + 1) == e && KeyAt(fold, ls, fold(key), s + 1, e) == i
    requires IsKeyLine(ls[i])
    ensures SetLines(fold, ls, section, key, value) == ls[..i] + [RewriteLine(ls[i], value)] + ls[ContinuationEnd(ls, i + 1, e)..]
  {
    hide *;
    SplicedIs(fold, ls, section, key, value);
    OwnIs(fold, ls, section, key, value, s, e, i);
  }

  lemma OwnIs(fold: Fold, ls: seq<string>, section: string, key: string, value: string, s: nat, e: nat, i: nat)
    requires s < i < e <= |ls| && HeaderNamed(ls, section, 0) == s && NextHeader(ls, s + 1) == e && KeyAt(fold, ls, fold(key), s + 1, e) == i
    requires IsKeyLine(ls[i])
    ensures Own(fold, ls, section, key) == (i, ContinuationEnd(ls, i + 1, e))
    ensures NewLine(fold, ls, section, key, value) == RewriteLine(ls[i], value)
  {
    hide HeaderNamed, NextHeader, KeyAt, ContinuationEnd, InsertAt, IsHeader, SectionName, IsContinuation, IsKeyLine, RewriteLine, FormatLine, KeyText;
  }

  lemma PositionsAfter(fold: Fold, ls: seq<string>, section: string, key: string, value: string, s: nat, e: nat, i: nat, j: nat, n: string)
    requires Parts(fold, ls, section, key, s, e, i, j) && Written(fold, n, key, value)
    ensures var ls', e' := ls[..i] + [n] + ls[j..], e - (j - i) + 1;
            && s < i < e' <= |ls'| && ls'[i] == n
            && HeaderNamed(ls', section, 0) == s && NextHeader(ls', s + 1) == e' && KeyAt(fold, ls', fold(key), s + 1, e') == i
  {
    hide IsHeader, SectionName, IsContinuation, MatchesKey, Strip, ValueText;
    var ls', e' := ls[..i] + [n] + ls[j..], e - (j - i) + 1;
    HeaderNamedIs(ls', section, 0, s);
    forall m | s + 1 <= m < e' ensures !IsHeader(ls'[m]) {
      if m > i { assert ls'[m] == ls[m - 1 + (j - i)]; }
    }
    NextHeaderIs(ls', s + 1, e');
    KeyAtIs(fold, ls', fold(key), s + 1, e', i);
  }

  lemma AppendTwice(fold: Fold, ls: seq<string>, section: string, key: string, value: string)
    requires WellFormedKey(key) && WellFormedSection(section) && HeaderNamed(ls, section, 0) == |ls|
    ensures var ls' := SetLines(fold, ls, section, key, value);
            SetLines(fold, ls', section, key, value) == ls' <==> LeadingSpace(value) == 0
  {
    hide *;
    var h, n, pad := "[" + section + "]", FormatLine(key, value), Padding(ls);
    var ls' := ls + pad + [h, n];
    HeaderReads(section);
    FormatWrites(fold, key, value);
    RewriteFormatted(key, value);
    BlankLineIsNothing(fold, section, fold(key));
    WrittenElsewhere(fold, h, n, section, key, value, section, fold(key));
    SetAppends(fold, ls, section, key, value);
    AppendedPositions(fold, ls, pad, h, n, section, fold(key));
    var s := |ls| + |pad|;
    RewritesAgain(fold, ls', section, key, value, s, s + 2, s + 1);
    assert ls'[s + 1] == n;
    Replaced(ls', s + 1, s + 2, RewriteLine(n, value));
  }

  lemma AppendedPositions(fold: Fold, ls: seq<string>, pad: seq<string>, h: string, n: string, section: string, k: string)
    requires (forall i :: 0 <= i < |ls| ==> !NamedHeader(ls[i], section)) && (pad == [] || pad == [""]) && !NamedHeader("", section)
    requires NamedHeader(h, section) && !IsHeader(n) && MatchesKey(fold, n, k)
    ensures var ls', s := ls + pad + [h, n], |ls| + |pad|;
            HeaderNamed(ls', section, 0) == s && NextHeader(ls', s + 1) == s + 2 && KeyAt(fold, ls', k, s + 1, s + 2) == s + 1
  {
    hide NamedHeader, IsHeader, MatchesKey;
    var ls', s := ls + pad + [h, n], |ls| + |pad|;
    HeaderNamedIs(ls', section, 0, s);
    NextHeaderIs(ls', s + 1, s + 2);
    KeyAtIs(fold, ls', k, s + 1, s + 2, s + 1);
  }

  // --- sections ------------------------------------------------------------------------------------

  /** `sections()`: the names in order. */
  function Names(ls: seq<string>): seq<string>
    decreases |ls|
  {
    if ls == [] then [] else (if IsHeader(ls[0]) then [SectionName(ls[0])] else []) + Names(ls[1..])
  }

  lemma {:induction false} NamesConcat(a: seq<string>, b: seq<string>)
    ensures Names(a + b) == Names(a) + Names(b)
    decreases |a|
  {
    hide IsHeader, SectionName;
    if a == [] {
      assert a + b == b;
    } else {
      assert (a + b)[1..] == a[1..] + b;
      NamesConcat(a[1..], b);
    }
  }

  lemma {:induction false} NoNames(ls: seq<string>)
    requires NoHeaders(ls)
    ensures Names(ls) == []
    decreases |ls|
  {
    hide IsHeader, SectionName;
    if ls != [] {
      NoNames(ls[1..]);
    }
  }

  /** `set` keeps the sections and their order, and adds a missing one at the end. */
  lemma {:induction false} SectionsKept(fold: Fold, ls: seq<string>, section: string, key: string, value: string)
    requires WellFormedKey(key) && WellFormedSection(section)
    ensures Names(SetLines(fold, ls, section, key, value))
            == Names(ls) + if HeaderNamed(ls, section, 0) == |ls| then [section] else []
  {
    hide *;
    if HeaderNamed(ls, section, 0) < |ls| {
      var s, e, i, j, n := InPlace(fold, ls, section, key, value);
      NoHeadersReplaced(fold, ls, section, key, value, s, e, i, j, n);
      NoNames([n]);
      NoNames(ls[i..j]);
      NamesConcat(ls[..i], ls[i..j]);
      NamesConcat(ls[..i] + ls[i..j], ls[j..]);
      NamesConcat(ls[..i], [n]);
      NamesConcat(ls[..i] + [n], ls[j..]);
      assert ls[..i] + ls[i..j] + ls[j..] == ls;
      assert Names(ls[..i]) + [] == Names(ls[..i]) && Names(ls) + [] == Names(ls);
    } else {
      AppendedNames(fold, ls, section, key, value);
    }
  }

  lemma NoHeadersReplaced(fold: Fold, ls: seq<string>, section: string, key: string, value: string, s: nat, e: nat, i: nat, j: nat, n: string)
    requires Parts(fold, ls, section, key, s, e, i, j) && Written(fold, n, key, value)
    ensures i <= j <= |ls| && NoHeaders(ls[i..j]) && NoHeaders([n])
  {
    hide IsHeader, SectionName, MatchesKey, IsContinuation, ValueText, Strip;
  }

  lemma AppendedNames(fold: Fold, ls: seq<string>, section: string, key: string, value: string)
    requires WellFormedKey(key) && WellFormedSection(section) && HeaderNamed(ls, section, 0) == |ls|
    ensures Names(SetLines(fold, ls, section, key, value)) == Names(ls) + [section]
  {
    var h, n, pad := "[" + section + "]", FormatLine(key, value), Padding(ls);
    HeaderReads(section);
    FormatWrites(fold, key, value);
    BlankLineIsNothing(fold, section, fold(key));
    hide WellFormedKey, WellFormedSection, FormatLine, IsKeyLine, IsHeader, SectionName, MatchesKey, ValueText, Strip, Blank, IsContinuation, HeaderNamed;
    NoNames(pad);
    NoNames([n]);
    NamesConcat(ls, pad);
    NamesConcat(ls + pad, [h, n]);
    assert [h, n][1..] == [n];
    assert Names(ls) + [] == Names(ls) && [section] + [] == [section];
  }
}
