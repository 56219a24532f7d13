/** The line-based INI editor as an object (`IniDocument` of util/provision_instance.py). */
module IniDocuments {
  import opened Results
  import opened IniText
  import opened IniSpec
  import opened IniLaws

  datatype Section = Section(name: string, start: nat, end: nat)
  datatype KeyLine = KeyLine(key: string, index: nat, last: nat)

  /** The headers from line i on, in order; their ends are not yet known. */
  function HeaderList(ls: seq<string>, i: nat): seq<Section>
    requires i <= |ls|
    decreases |ls| - i
  {
    if i == |ls| then []
    else (if IsHeader(ls[i]) then [Section(SectionName(ls[i]), i, 0)] else []) + HeaderList(ls, i + 1)
  }

  /** A section ends at the next header, or with the document. */
  function EndOf(ls: seq<string>, found: seq<Section>, k: nat): nat {
    if k + 1 < |found| then found[k + 1].start else |ls|
  }

  /** `_sections`. */
  method Sections(ls: seq<string>) returns (found: seq<Section>)
    ensures var hs := HeaderList(ls, 0);
            |found| == |hs| && forall k :: 0 <= k < |hs| ==> found[k] == Section(hs[k].name, hs[k].start, EndOf(ls, hs, k))
  {
    hide IsHeader, SectionName;
    found := [];
    var i := 0;
    while i < |ls|
      invariant i <= |ls| && found + HeaderList(ls, i) == HeaderList(ls, 0)
    {
      ghost var rest := HeaderList(ls, i + 1);
      if IsHeader(ls[i]) {
        assert found + ([Section(SectionName(ls[i]), i, 0)] + rest) == found + [Section(SectionName(ls[i]), i, 0)] + rest;
        found := found + [Section(SectionName(ls[i]), i, 0)];
      } else {
        assert [] + rest == rest;
      }
      i := i + 1;
    }
    assert found + [] == found;
    ghost var hs := found;
    hide HeaderList;
    var k := 0;
    while k < |found|
      invariant k <= |found| == |hs|
      invariant forall m :: k <= m < |hs| ==> found[m] == hs[m]
      invariant forall m :: 0 <= m < k ==> found[m] == Section(hs[m].name, hs[m].start, EndOf(ls, hs, m))
    {
      var end := if k + 1 < |found| then found[k + 1].start else |ls|;
      found := found[k := Section(found[k].name, found[k].start, end)];
      k := k + 1;
    }
  }

  /** Entry k of the list, and what follows it. */
  lemma {:induction false} HeaderEntry(ls: seq<string>, i: nat, k: nat)
    requires i <= |ls| && k < |HeaderList(ls, i)|
    ensures var h := HeaderList(ls, i)[k];
            && i <= h.start < |ls| && NamedHeader(ls[h.start], h.name)
            && HeaderList(ls, h.start + 1) == HeaderList(ls, i)[k + 1..]
    decreases |ls| - i
  {
    hide IsHeader, SectionName;
    if IsHeader(ls[i]) {
      assert HeaderList(ls, i)[1..] == HeaderList(ls, i + 1);
      if k > 0 {
        HeaderEntry(ls, i + 1, k - 1);
      }
    } else {
      assert HeaderList(ls, i) == HeaderList(ls, i + 1);
      HeaderEntry(ls, i + 1, k);
    }
  }

  lemma {:induction false} FirstHeader(ls: seq<string>, i: nat)
    requires i <= |ls|
    ensures NextHeader(ls, i) == if HeaderList(ls, i) == [] then |ls| else HeaderList(ls, i)[0].start
    decreases |ls| - i
  {
    hide IsHeader, SectionName;
    if i < |ls| && !IsHeader(ls[i]) {
      FirstHeader(ls, i + 1);
    }
  }

  /** The first entry of a name is the first header of that name. */
  lemma {:induction false} FirstNamed(ls: seq<string>, i: nat, section: string, k: nat)
    requires i <= |ls| && k <= |HeaderList(ls, i)|
    requires forall j :: 0 <= j < k ==> HeaderList(ls, i)[j].name != section
    requires k < |HeaderList(ls, i)| ==> HeaderList(ls, i)[k].name == section
    ensures HeaderNamed(ls, section, i) == if k < |HeaderList(ls, i)| then HeaderList(ls, i)[k].start else |ls|
    decreases |ls| - i
  {
    hide IsHeader, SectionName;
    if i < |ls| {
      var hs, rest := HeaderList(ls, i), HeaderList(ls, i + 1);
      if IsHeader(ls[i]) {
        assert hs[1..] == rest;
        if k > 0 {
          assert hs[0].name != section && !NamedHeader(ls[i], section);
          assert forall j :: 0 <= j < k - 1 ==> rest[j] == hs[j + 1];
          FirstNamed(ls, i + 1, section, k - 1);
        }
      } else {
        assert hs == rest;
        FirstNamed(ls, i + 1, section, k);
      }
    }
  }

  /** `_find_section`: the first section of that name. */
  method FindSection(ls: seq<string>, section: string) returns (r: Option<(nat, nat)>)
    ensures var s := HeaderNamed(ls, section, 0);
            r == if s == |ls| then None else Some((s, NextHeader(ls, s + 1)))
  {
    hide HeaderNamed, NextHeader, HeaderList, NamedHeader;
    var found := Sections(ls);
    ghost var hs := HeaderList(ls, 0);
    var k := 0;
    while k < |found| && found[k].name != section
      invariant k <= |found| && forall j :: 0 <= j < k ==> hs[j].name != section
    {
      k := k + 1;
    }
    FirstNamed(ls, 0, section, k);
    if k < |found| {
      HeaderEntry(ls, 0, k);
      FirstHeader(ls, hs[k].start + 1);
      return Some((found[k].start, found[k].end));
    }
    return None;
  }

  /** The key lines in [i, e), in order, each with the last of its continuation lines. */
  function KeyList(fold: Fold, ls: seq<string>, i: nat, e: nat): seq<KeyLine>
    requires i <= e <= |ls|
    decreases e - i
  {
    if i == e then []
    else if IsKeyLine(ls[i]) then
      var c := ContinuationEnd(ls, i + 1, e);
      [KeyLine(fold(KeyText(ls[i])), i, c - 1)] + KeyList(fold, ls, c, e)
    else KeyList(fold, ls, i + 1, e)
  }

  /** `_key_lines`. */
  method KeyLines(fold: Fold, ls: seq<string>, s: nat, e: nat) returns (out: seq<KeyLine>)
    requires s < e <= |ls|
    ensures out == KeyList(fold, ls, s + 1, e)
  {
    hide IsKeyLine, IsContinuation, KeyText;
    out := [];
    var i := s + 1;
    while i < e
      invariant s < i <= e && out + KeyList(fold, ls, i, e) == KeyList(fold, ls, s + 1, e)
    {
      if IsKeyLine(ls[i]) {
        var last := i;
        var j := i + 1;
        while j < e && IsContinuation(ls[j])
          invariant last + 1 == j <= e && i <= last
          invariant ContinuationEnd(ls, i + 1, e) == ContinuationEnd(ls, j, e)
        {
          last := j;
          j := j + 1;
        }
        assert ContinuationEnd(ls, i + 1, e) == j;
        ghost var entry, rest := KeyLine(fold(KeyText(ls[i])), i, last), KeyList(fold, ls, j, e);
        assert KeyList(fold, ls, i, e) == [entry] + rest;
        assert out + ([entry] + rest) == out + [entry] + rest;
        out := out + [KeyLine(fold(KeyText(ls[i])), i, last)];
        i := last + 1;
      } else {
        i := i + 1;
      }
    }
    assert out + [] == out;
  }

  lemma {:induction false} SkipContinuations(fold: Fold, ls: seq<string>, k: string, i: nat, c: nat, e: nat)
    requires i <= c <= e <= |ls| && forall m :: i <= m < c ==> IsContinuation(ls[m])
    ensures KeyAt(fold, ls, k, i, e) == KeyAt(fold, ls, k, c, e)
    decreases c - i
  {
    hide IsContinuation, IsKeyLine, KeyText;
    if i < c {
      ContinuationIsNoKey(ls[i]);
      SkipContinuations(fold, ls, k, i + 1, c, e);
    }
  }

  /** The first entry of a key is its first line. */
  lemma {:induction false} FirstEntry(fold: Fold, ls: seq<string>, i: nat, e: nat, k: string, n: nat)
    requires i <= e <= |ls| && n <= |KeyList(fold, ls, i, e)|
    requires forall j :: 0 <= j < n ==> KeyList(fold, ls, i, e)[j].key != k
    requires n < |KeyList(fold, ls, i, e)| ==> KeyList(fold, ls, i, e)[n].key == k
    ensures var out := KeyList(fold, ls, i, e);
            && KeyAt(fold, ls, k, i, e) == (if n < |out| then out[n].index else e)
            && (n < |out| ==> out[n].index < e && out[n].last + 1 == ContinuationEnd(ls, out[n].index + 1, e))
    decreases e - i
  {
    hide IsKeyLine, KeyText, IsContinuation;
    if i < e {
      var out := KeyList(fold, ls, i, e);
      if IsKeyLine(ls[i]) {
        var c := ContinuationEnd(ls, i + 1, e);
        var rest := KeyList(fold, ls, c, e);
        assert out[1..] == rest;
        if n > 0 {
          assert out[0].key != k && !MatchesKey(fold, ls[i], k);
          assert forall j :: 0 <= j < n - 1 ==> rest[j] == out[j + 1];
          FirstEntry(fold, ls, c, e, k, n - 1);
          SkipContinuations(fold, ls, k, i + 1, c, e);
        }
      } else {
        FirstEntry(fold, ls, i + 1, e, k, n);
      }
    }
  }

  /** The last entry is the last key line with its continuation lines. */
  lemma {:induction false} LastEntry(fold: Fold, ls: seq<string>, i: nat, e: nat)
    requires i <= e <= |ls|
    ensures var out := KeyList(fold, ls, i, e);
            if out == [] then forall m :: i <= m < e ==> !IsKeyLine(ls[m])
            else
              var l := out[|out| - 1];
              && i <= l.index < e && IsKeyLine(ls[l.index]) && (forall m :: l.index < m < e ==> !IsKeyLine(ls[m]))
              && l.last + 1 == ContinuationEnd(ls, l.index + 1, e)
    decreases e - i
  {
    hide IsKeyLine, KeyText, IsContinuation;
    if i < e {
      if IsKeyLine(ls[i]) {
        var c := ContinuationEnd(ls, i + 1, e);
        LastEntry(fold, ls, c, e);
        forall m | i < m < c ensures !IsKeyLine(ls[m]) {
          ContinuationIsNoKey(ls[m]);
        }
      } else {
        LastEntry(fold, ls, i + 1, e);
      }
    }
  }

  /** So a new key goes behind the last entry. */
  lemma {:induction false} InsertBehind(fold: Fold, ls: seq<string>, s: nat, e: nat)
    requires s < e <= |ls|
    ensures var out := KeyList(fold, ls, s + 1, e);
            InsertAt(ls, s, e) == if out == [] then s + 1 else out[|out| - 1].last + 1
  {
    LastEntry(fold, ls, s + 1, e);
    hide IsKeyLine, KeyText, IsContinuation, KeyList, ContinuationEnd;
    var out := KeyList(fold, ls, s + 1, e);
    LastKeyIs(ls, s, e, if out == [] then s else out[|out| - 1].index);
  }

  lemma LastKeyIs(ls: seq<string>, s: nat, e: nat, r: nat)
    requires s <= r < e <= |ls| && (r > s ==> IsKeyLine(ls[r])) && forall j :: r < j < e ==> !IsKeyLine(ls[j])
    ensures LastKey(ls, s, e) == r
  {
    hide IsKeyLine;
  }

  class IniDocument {
    var lines: seq<string>
    var trailingNewline: bool
    const fold: Fold

    /** Lines as `splitlines` gives them: without line ends. */
    constructor (ls: seq<string>, newline: bool, fold: Fold)
      ensures lines == ls && trailingNewline == newline && this.fold == fold
    {
      this.lines, this.trailingNewline, this.fold := ls, newline, fold;
    }

    method Get(section: string, key: string) returns (value: Option<string>)
      ensures value == Lookup(fold, lines, section, fold(key))
    {
      hide *;
      LookupAt(fold, lines, section, fold(key));
      var span := FindSection(lines, section);
      if span.None? {
        return None;
      }
      var s, e := span.value.0, span.value.1;
      var out := KeyLines(fold, lines, s, e);
      var n := IndexOf(out, fold(key));
      FirstEntry(fold, lines, s + 1, e, fold(key), n);
      if n < |out| {
        EntryIsKeyLine(fold, lines, fold(key), s + 1, e);
        return Some(Strip(ValueText(lines[out[n].index])));
      }
      return None;
    }

    /** Refuses a value of several lines; otherwise the lines are those of `SetLines`. */
    method Set(section: string, key: string, given: Option<string>) returns (r: Result<bool>)
      modifies this
      ensures var value := if given.None? then "" else given.value;
              if '\n' in value || '\r' in value then r.Err? && lines == old(lines) && trailingNewline == old(trailingNewline)
              else r == Ok(true) && lines == SetLines(fold, old(lines), section, key, value)
                   && trailingNewline == (old(trailingNewline) || HeaderNamed(old(lines), section, 0) == |old(lines)|)
    {
      hide *;
      var value := if given.None? then "" else given.value;
      if '\n' in value || '\r' in value {
        return Err(ValueError);
      }
      var span := FindSection(lines, section);
      if span.None? {
        lines := AddSection(fold, lines, section, key, value);
        trailingNewline := true;
      } else {
        lines := EditSection(fold, lines, section, key, value, span.value.0, span.value.1);
      }
      return Ok(true);
    }
  }

  /** `set` in a section that does not exist. */
  method AddSection(fold: Fold, ls: seq<string>, section: string, key: string, value: string) returns (ls': seq<string>)
    requires HeaderNamed(ls, section, 0) == |ls|
    ensures ls' == SetLines(fold, ls, section, key, value)
  {
    hide *;
    SetAppends(fold, ls, section, key, value);
    PaddingIs(ls);
    ls' := ls;
    if ls != [] && !Blank(ls[|ls| - 1]) {
      ls' := ls' + [""];
    }
    assert ls' == ls + Padding(ls);
    ls' := ls' + ["[" + section + "]", FormatLine(key, value)];
  }

  /** `set` in a section that exists. */
  method EditSection(fold: Fold, ls: seq<string>, section: string, key: string, value: string, s: nat, e: nat) returns (ls': seq<string>)
    requires s == HeaderNamed(ls, section, 0) < |ls| && e == NextHeader(ls, s + 1)
    ensures ls' == SetLines(fold, ls, section, key, value)
  {
    hide *;
    var out := KeyLines(fold, ls, s, e);
    var n := IndexOf(out, fold(key));
    FirstEntry(fold, ls, s + 1, e, fold(key), n);
    if n < |out| {
      var i, last := out[n].index, out[n].last;
      SetExisting(fold, ls, section, key, value, s, e, i);
      ls' := ls[..i] + [RewriteLine(ls[i], value)] + ls[last + 1..];
    } else {
      InsertBehind(fold, ls, s, e);
      SetMissing(fold, ls, section, key, value, s, e);
      var at := if out == [] then s + 1 else out[|out| - 1].last + 1;
      ls' := ls[..at] + [FormatLine(key, value)] + ls[at..];
    }
  }

  /** The first entry of a key, or the length. */
  method IndexOf(out: seq<KeyLine>, k: string) returns (n: nat)
    ensures n <= |out| && (n < |out| ==> out[n].key == k)
    ensures forall j :: 0 <= j < n ==> out[j].key != k
  {
    n := 0;
    while n < |out| && out[n].key != k
      invariant n <= |out| && forall j :: 0 <= j < n ==> out[j].key != k
    {
      n := n + 1;
    }
  }

  lemma EntryIsKeyLine(fold: Fold, ls: seq<string>, k: string, i: nat, e: nat)
    requires i <= e <= |ls| && KeyAt(fold, ls, k, i, e) < e
    ensures IsKeyLine(ls[KeyAt(fold, ls, k, i, e)])
  {
    hide IsKeyLine, KeyText;
  }

  lemma PaddingIs(ls: seq<string>)
    ensures Padding(ls) == if ls != [] && !Blank(ls[|ls| - 1]) then [""] else []
  {
    hide Blank;
  }

  lemma SetExisting(fold: Fold, ls: seq<string>, section: string, key: string, value: string, s: nat, e: nat, i: nat)
    requires s == HeaderNamed(ls, section, 0) < |ls| && e == NextHeader(ls, s + 1) && i == KeyAt(fold, ls, fold(key), s + 1, e) < e
    ensures IsKeyLine(ls[i])
    ensures SetLines(fold, ls, section, key, value) == ls[..i] + [RewriteLine(ls[i], value)] + ls[ContinuationEnd(ls, i + 1, e)..]
  {
    hide HeaderNamed, NextHeader, KeyAt, ContinuationEnd, InsertAt, RewriteLine, FormatLine, Blank, NamedHeader, MatchesKey, IsHeader, IsKeyLine, IsContinuation;
    EntryIsKeyLine(fold, ls, fold(key), s + 1, e);
  }

  lemma SetMissing(fold: Fold, ls: seq<string>, section: string, key: string, value: string, s: nat, e: nat)
    requires s == HeaderNamed(ls, section, 0) < |ls| && e == NextHeader(ls, s + 1) && KeyAt(fold, ls, fold(key), s + 1, e) == e
    ensures SetLines(fold, ls, section, key, value) == ls[..InsertAt(ls, s, e)] + [FormatLine(key, value)] + ls[InsertAt(ls, s, e)..]
  {
    hide HeaderNamed, NextHeader, KeyAt, ContinuationEnd, InsertAt, RewriteLine, FormatLine, Blank, NamedHeader, MatchesKey, IsHeader, IsKeyLine, IsContinuation;
  }
}
