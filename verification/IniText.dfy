/** Lines of an INI file as util/provision_instance.py reads and writes them: section headers, key lines,
    continuation lines, and the rewriting of one key line. */
module IniText {
  /** `str.isspace` of one character. */
  predicate IsSpace(c: char) {
    || c == ' ' || '\t' <= c <= '\r' || '\U{1c}' <= c <= '\U{1f}' || c == '\U{85}' || c == '\U{a0}' || c == '\U{1680}'
    || '\U{2000}' <= c <= '\U{200a}' || c == '\U{2028}' || c == '\U{2029}' || c == '\U{202f}' || c == '\U{205f}' || c == '\U{3000}'
  }

  predicate AllSpace(s: string) {
    forall i :: 0 <= i < |s| ==> IsSpace(s[i])
  }

  function LeadingSpace(s: string): (n: nat)
    ensures n <= |s| && AllSpace(s[..n]) && (n < |s| ==> !IsSpace(s[n]))
  {
    if s == "" || !IsSpace(s[0]) then 0
    else
      var n := LeadingSpace(s[1..]);
      assert s[..n + 1] == [s[0]] + s[1..][..n];
      n + 1
  }

  /** Where the trailing whitespace starts. */
  function TrailingSpace(s: string): (n: nat)
    ensures n <= |s| && AllSpace(s[n..]) && (n > 0 ==> !IsSpace(s[n - 1]))
  {
    if s == "" || !IsSpace(s[|s| - 1]) then |s|
    else
      var n := TrailingSpace(s[..|s| - 1]);
      assert s[n..] == s[..|s| - 1][n..] + [s[|s| - 1]];
      n
  }

  function LStrip(s: string): string { s[LeadingSpace(s)..] }
  function RStrip(s: string): string { s[..TrailingSpace(s)] }
  function Strip(s: string): string { LStrip(RStrip(s)) }

  /** No whitespace at either end. */
  predicate Trimmed(s: string) {
    s == "" || (!IsSpace(s[0]) && !IsSpace(s[|s| - 1]))
  }

  lemma LeadingIs(s: string, n: nat)
    requires n <= |s| && AllSpace(s[..n]) && (n < |s| ==> !IsSpace(s[n]))
    ensures LeadingSpace(s) == n
  {
    hide IsSpace;
    assert n > 0 ==> s[..n][0] == s[0];
    if s != "" && IsSpace(s[0]) {
      assert s[1..][..n - 1] == s[..n][1..];
      LeadingIs(s[1..], n - 1);
    }
  }

  lemma TrailingIs(s: string, n: nat)
    requires n <= |s| && AllSpace(s[n..]) && (n > 0 ==> !IsSpace(s[n - 1]))
    ensures TrailingSpace(s) == n
  {
    hide IsSpace;
    if s != "" && IsSpace(s[|s| - 1]) {
      var init := s[..|s| - 1];
      assert forall i :: n <= i < |init| ==> init[i] == s[n..][i - n];
      TrailingIs(init, n);
    }
  }

  lemma TrailingPast(s: string, i: nat)
    requires i < |s| && !IsSpace(s[i])
    ensures TrailingSpace(s) > i
  {
    hide IsSpace;
    if IsSpace(s[|s| - 1]) {
      TrailingPast(s[..|s| - 1], i);
    }
  }

  lemma TrimmedStrips(s: string)
    requires Trimmed(s)
    ensures Strip(s) == s && LStrip(s) == s && RStrip(s) == s
  {
    hide IsSpace;
    if s != "" {
      TrailingIs(s, |s|);
      LeadingIs(s, 0);
    }
  }

  lemma AllSpaceStrips(s: string)
    requires AllSpace(s)
    ensures Strip(s) == "" && LStrip(s) == ""
  {
    hide IsSpace;
    LeadingIs(s, |s|);
    TrailingIs(s, 0);
  }

  /** Leading whitespace does not matter to what is between the ends. */
  lemma {:induction false} StripAfterSpace(w: string, s: string)
    requires AllSpace(w)
    ensures LStrip(w + s) == LStrip(s) && Strip(w + s) == Strip(s)
  {
    hide IsSpace;
    LeadingAfter(w, s);
    var t := TrailingSpace(s);
    if t == 0 {
      assert s[0..] == s;
      assert AllSpace(w + s);
      AllSpaceStrips(w + s);
      AllSpaceStrips(s);
    } else {
      TrailingAfter(w, s);
      LeadingAfter(w, s[..t]);
    }
  }

  lemma TrailingAfter(w: string, s: string)
    requires TrailingSpace(s) > 0
    ensures RStrip(w + s) == w + RStrip(s)
  {
    hide IsSpace;
    var t := TrailingSpace(s);
    assert (w + s)[|w| + t..] == s[t..];
    TrailingIs(w + s, |w| + t);
    assert (w + s)[..|w| + t] == w + s[..t];
  }

  lemma LeadingAfter(w: string, s: string)
    requires AllSpace(w)
    ensures LeadingSpace(w + s) == |w| + LeadingSpace(s)
    ensures LStrip(w + s) == LStrip(s)
  {
    hide IsSpace;
    var n := LeadingSpace(s);
    assert (w + s)[..|w| + n] == w + s[..n];
    LeadingIs(w + s, |w| + n);
    assert (w + s)[|w| + n..] == s[n..];
  }

  lemma StripOfLStrip(s: string)
    ensures Strip(LStrip(s)) == Strip(s)
  {
    hide IsSpace;
    var n := LeadingSpace(s);
    StripAfterSpace(s[..n], s[n..]);
    assert s[..n] + s[n..] == s;
  }

  // --- lines -----------------------------------------------------------------------------------

  predicate Blank(line: string) {
    Strip(line) == ""
  }

  predicate IsComment(line: string) {
    var t := Strip(line);
    t != "" && (t[0] == ';' || t[0] == '#')
  }

  /** The section pattern. */
  predicate IsHeader(line: string) {
    var t := Strip(line);
    |t| >= 3 && t[0] == '[' && t[|t| - 1] == ']' && ']' !in t[1..|t| - 1]
  }

  function SectionName(line: string): string
    requires IsHeader(line)
  {
    var t := Strip(line);
    Strip(t[1..|t| - 1])
  }

  predicate Delimiter(c: char) {
    c == '=' || c == ':'
  }

  /** Index of the first delimiter, or the length. */
  function SepAt(line: string): (q: nat)
    ensures q <= |line| && (q < |line| ==> Delimiter(line[q]))
    ensures forall i :: 0 <= i < q ==> !Delimiter(line[i])
  {
    if line == "" || Delimiter(line[0]) then 0
    else
      var q := SepAt(line[1..]);
      assert forall i :: 0 < i < q + 1 ==> line[i] == line[1..][i - 1];
      q + 1
  }

  /** The characters a key cannot start with. */
  predicate KeyStart(c: char) {
    !IsSpace(c) && !Delimiter(c) && c != ';' && c != '#' && c != '['
  }

  /** The key pattern, on a line that is not indented. */
  predicate IsKeyLine(line: string) {
    line != "" && KeyStart(line[0]) && SepAt(line) < |line|
  }

  function KeyText(line: string): string
    requires IsKeyLine(line)
  {
    RStrip(line[..SepAt(line)])
  }

  function SepText(line: string): string
    requires IsKeyLine(line)
  {
    var q := SepAt(line);
    line[TrailingSpace(line[..q])..q + 1] + line[q + 1..][..LeadingSpace(line[q + 1..])]
  }

  function ValueText(line: string): string
    requires IsKeyLine(line)
  {
    LStrip(line[SepAt(line) + 1..])
  }

  /** An indented line that is neither blank nor a comment. */
  predicate IsContinuation(line: string) {
    !Blank(line) && IsSpace(line[0]) && !IsComment(line)
  }

  lemma StripOfEmpty()
    ensures Strip("") == ""
  {
  }

  /** Names `set` can write and read back. */
  predicate WellFormedKey(key: string) {
    key != "" && KeyStart(key[0]) && !IsSpace(key[|key| - 1]) && (forall i :: 0 <= i < |key| ==> !Delimiter(key[i]))
  }

  predicate WellFormedSection(name: string) {
    name != "" && Trimmed(name) && ']' !in name
  }

  // --- how a key line reads --------------------------------------------------------------------

  /** A line put together from its parts reads back as those parts. */
  lemma {:induction false} ParseKeyLine(key: string, w: string, c: char, rest: string)
    requires WellFormedKey(key) && AllSpace(w) && Delimiter(c)
    ensures var line := key + w + [c] + rest;
            && IsKeyLine(line) && KeyText(line) == key
            && SepText(line) == w + [c] + rest[..LeadingSpace(rest)]
            && ValueText(line) == LStrip(rest) && Strip(ValueText(line)) == Strip(rest)
  {
    assert IsSpace(' ');
    hide IsSpace;
    var line := key + w + [c] + rest;
    var q := |key| + |w|;
    assert line[q] == c;
    forall i | 0 <= i < q ensures !Delimiter(line[i]) {
      if i >= |key| {
        assert line[i] == w[i - |key|];
        SpaceIsNoDelimiter(w[i - |key|]);
      }
    }
    assert SepAt(line) == q;
    assert line[..q] == key + w;
    assert (key + w)[|key|..] == w;
    TrailingIs(key + w, |key|);
    assert (key + w)[..|key|] == key;
    assert line[|key|..q + 1] == w + [c];
    assert line[q + 1..] == rest;
    StripOfLStrip(rest);
  }

  lemma SpaceIsNoDelimiter(c: char)
    requires IsSpace(c)
    ensures !Delimiter(c)
  {
  }

  /** And every key line is put together that way. */
  lemma {:induction false} KeyLineParts(line: string)
    requires IsKeyLine(line)
    ensures WellFormedKey(KeyText(line))
    ensures var q, n := SepAt(line), TrailingSpace(line[..SepAt(line)]);
            && AllSpace(line[n..q]) && line == KeyText(line) + line[n..q] + [line[q]] + line[q + 1..]
            && SepText(line) == line[n..q] + [line[q]] + line[q + 1..][..LeadingSpace(line[q + 1..])]
  {
    hide IsSpace;
    var q := SepAt(line);
    var n := TrailingSpace(line[..q]);
    assert line[..q][n..] == line[n..q];
    assert line[..q][..n] == line[..n];
    TrailingPast(line[..q], 0);
    assert line[n..q + 1] == line[n..q] + [line[q]];
  }

  function FormatLine(key: string, value: string): string {
    if value == "" then key + " =" else key + " = " + value
  }

  /** The delimiter kept, without blanks before an empty value, with one after a padded bare delimiter. */
  function NewSep(sep: string, value: string): string
    requires sep != ""
  {
    if value == "" then RStrip(sep)
    else if IsSpace(sep[0]) && !IsSpace(sep[|sep| - 1]) then sep + " "
    else sep
  }

  function RewriteLine(line: string, value: string): string
    requires IsKeyLine(line)
  {
    KeyText(line) + NewSep(SepText(line), value) + value
  }

  /** What a written line holds. */
  ghost predicate Holds(line: string, key: string, value: string) {
    IsKeyLine(line) && KeyText(line) == key && Strip(ValueText(line)) == Strip(value)
  }

  /** The line put together from a key, a delimiter with its padding, and a value. */
  lemma {:induction false} JoinedHolds(key: string, w: string, c: char, t: string, value: string)
    requires WellFormedKey(key) && AllSpace(w) && Delimiter(c) && AllSpace(t)
    ensures var l := key + (w + [c] + t) + value;
            Holds(l, key, value) && SepText(l) == w + [c] + t + value[..LeadingSpace(value)]
  {
    hide *;
    var n, l1, l := LeadingSpace(value), key + w + [c] + (t + value), key + (w + [c] + t) + value;
    Regroup(key, w, [c], t, value);
    assert l1 == l;
    ParseKeyLine(key, w, c, t + value);
    StripAfterSpace(t, value);
    LeadingAfter(t, value);
    assert (t + value)[..|t| + n] == t + value[..n] by { Prefixed(t, value, n); }
    assert SepText(l) == w + [c] + t + value[..n] by { Regroup("", w, [c], t, value[..n]); }
    HoldsIs(l, key, value);
  }

  lemma HoldsIs(l: string, key: string, value: string)
    requires IsKeyLine(l) && KeyText(l) == key && Strip(ValueText(l)) == Strip(value)
    ensures Holds(l, key, value)
  {
    hide IsKeyLine, KeyText, ValueText, Strip;
  }

  lemma Regroup(a: string, b: string, c: string, d: string, e: string)
    ensures a + b + c + (d + e) == a + (b + c + d) + e
    ensures b + c + (d + e) == b + c + d + e
  {
    assert a + b + c + (d + e) == a + (b + c + d) + e;
    assert b + c + (d + e) == b + c + d + e;
  }

  lemma Prefixed(t: string, value: string, n: nat)
    requires n <= |value|
    ensures (t + value)[..|t| + n] == t + value[..n]
  {
    assert (t + value)[..|t| + n] == t + value[..n];
  }

  lemma {:induction false} FormatHolds(key: string, value: string)
    requires WellFormedKey(key)
    ensures Holds(FormatLine(key, value), key, value)
    ensures SepText(FormatLine(key, value)) == " =" + if value == "" then "" else " " + value[..LeadingSpace(value)]
  {
    assert AllSpace(" ") && AllSpace("") && Delimiter('=');
    hide IsSpace, AllSpace, Delimiter, WellFormedKey, Holds, IsKeyLine, SepText, LeadingSpace;
    if value == "" {
      JoinedHolds(key, " ", '=', "", value);
      Literals(key, value);
      assert key + " =" + value == key + " =";
      assert key + (" " + ['='] + "") + value == FormatLine(key, value);
      assert value[..LeadingSpace(value)] == value;
      Literals("", value);
    } else {
      JoinedHolds(key, " ", '=', " ", value);
      Literals(key, value);
      assert key + (" " + ['='] + " ") + value == FormatLine(key, value);
      Literals(key, value[..LeadingSpace(value)]);
    }
  }

  lemma Literals(key: string, v: string)
    ensures key + (" " + ['='] + "") + v == key + " =" + v
    ensures key + (" " + ['='] + " ") + v == key + " = " + v
    ensures " " + ['='] + " " + v == " =" + (" " + v)
    ensures " " + ['='] + "" + v == " =" + v
  {
    assert " " + ['='] + "" == " =";
    assert " " + ['='] + " " == " = ";
    assert " = " == " =" + " ";
    assert " =" + " " + v == " =" + (" " + v);
  }

  /** Rewriting keeps the key spelling and the padding before the delimiter, and stores the value. */
  lemma {:induction false} RewriteHolds(line: string, value: string)
    requires IsKeyLine(line)
    ensures SepText(line) != ""
    ensures var l' := RewriteLine(line, value);
            && Holds(l', KeyText(line), value)
            && SepText(l') == NewSep(SepText(line), value) + value[..LeadingSpace(value)]
  {
    var key, w, c, t := SepParts(line);
    hide IsSpace, KeyText, SepText, LeadingSpace, TrailingSpace, SepAt, WellFormedKey, Holds, AllSpace, NewSep;
    NewSepPadded(w, c, t, value);
    var t' := if value == "" then "" else if IsSpace((w + [c] + t)[0]) && !IsSpace((w + [c] + t)[|w + [c] + t| - 1]) then t + " " else t;
    JoinedHolds(key, w, c, t', value);
  }

  /** The key of a line, and its delimiter with the padding on both sides. */
  lemma SepParts(line: string) returns (key: string, w: string, c: char, t: string)
    requires IsKeyLine(line)
    ensures key == KeyText(line) && WellFormedKey(key) && AllSpace(w) && Delimiter(c) && AllSpace(t)
    ensures SepText(line) == w + [c] + t
  {
    KeyLineParts(line);
    var q, n := SepAt(line), TrailingSpace(line[..SepAt(line)]);
    key, w, c := KeyText(line), line[n..q], line[q];
    t := line[q + 1..][..LeadingSpace(line[q + 1..])];
    hide IsSpace, LeadingSpace, TrailingSpace, SepAt;
  }

  /** A rewritten delimiter: bare for an empty value, followed by a blank where it only had one before it. */
  lemma NewSepPadded(w: string, c: char, t: string, value: string)
    requires Delimiter(c) && AllSpace(t)
    ensures var sep := w + [c] + t;
            var t' := if value == "" then "" else if IsSpace(sep[0]) && !IsSpace(sep[|sep| - 1]) then t + " " else t;
            AllSpace(t') && NewSep(sep, value) == w + [c] + t'
  {
    assert IsSpace(' ');
    hide IsSpace, RStrip, Delimiter;
    RStripPadded(w, c, t);
    assert w + [c] + "" == w + [c] && w + [c] + (t + " ") == w + [c] + t + " ";
  }

  lemma RStripPadded(w: string, c: char, t: string)
    requires Delimiter(c) && AllSpace(t)
    ensures RStrip(w + [c] + t) == w + [c]
  {
    SpaceOrDelimiter(c);
    hide IsSpace;
    var sep := w + [c] + t;
    assert sep[|w| + 1..] == t;
    TrailingIs(sep, |w| + 1);
    assert sep[..|w| + 1] == w + [c];
  }

  lemma SpaceOrDelimiter(c: char)
    requires Delimiter(c)
    ensures !IsSpace(c)
  {
  }

  /** Rewriting a line that already holds the value changes nothing, exactly if the value has no leading
      blanks. */
  lemma {:induction false} RewriteTwice(line: string, value: string)
    requires IsKeyLine(line)
    ensures var l' := RewriteLine(line, value);
            IsKeyLine(l') && (RewriteLine(l', value) == l' <==> LeadingSpace(value) == 0)
  {
    RewriteHolds(line, value);
    SepShape(line);
    hide IsSpace, IsKeyLine, KeyText, SepText, ValueText, Strip, RStrip, NewSep;
    var l', sep := RewriteLine(line, value), NewSep(SepText(line), value);
    var n := LeadingSpace(value);
    NewSepTwice(SepText(line), value, n);
    assert RewriteLine(l', value) == KeyText(line) + NewSep(sep + value[..n], value) + value;
    assert l' == KeyText(line) + sep + value;
  }

  lemma NewSepTwice(sep: string, value: string, n: nat)
    requires sep != "" && RStrip(sep) != "" && n <= |value|
    ensures NewSep(sep, value) != ""
    ensures n == 0 ==> NewSep(NewSep(sep, value) + value[..n], value) == NewSep(sep, value)
    ensures n > 0 ==> |NewSep(NewSep(sep, value) + value[..n], value)| > |NewSep(sep, value)|
  {
    RStripTwice(sep);
    assert IsSpace(' ');
    hide IsSpace, RStrip;
    assert value[..0] == "" && NewSep(sep, value) + "" == NewSep(sep, value);
  }

  lemma SepShape(line: string)
    requires IsKeyLine(line)
    ensures SepText(line) != "" && RStrip(SepText(line)) != ""
  {
    hide IsSpace;
    KeyLineParts(line);
    var q, n := SepAt(line), TrailingSpace(line[..SepAt(line)]);
    var sep := SepText(line);
    assert sep[q - n] == line[q];
    SpaceOrDelimiter(line[q]);
    TrailingPast(sep, q - n);
  }

  lemma RStripTwice(s: string)
    ensures RStrip(RStrip(s)) == RStrip(s)
  {
    hide IsSpace;
    var r := RStrip(s);
    TrailingIs(r, |r|);
  }

  /** A freshly formatted line is one a rewrite leaves alone, again without leading blanks. */
  lemma {:induction false} RewriteFormatted(key: string, value: string)
    requires WellFormedKey(key)
    ensures var l := FormatLine(key, value); IsKeyLine(l) && (RewriteLine(l, value) == l <==> LeadingSpace(value) == 0)
  {
    FormatHolds(key, value);
    if value == "" {
      RewriteFormattedEmpty(key);
    } else {
      RewriteFormattedValue(key, value);
    }
  }

  lemma RewriteFormattedEmpty(key: string)
    requires var l := FormatLine(key, ""); IsKeyLine(l) && KeyText(l) == key && SepText(l) == " ="
    ensures RewriteLine(FormatLine(key, ""), "") == FormatLine(key, "") && LeadingSpace("") == 0
  {
    assert !IsSpace('=');
    hide IsSpace, IsKeyLine, KeyText, SepText;
    TrailingIs(" =", 2);
    assert key + " =" + "" == key + " =";
  }

  lemma RewriteFormattedValue(key: string, value: string)
    requires value != ""
    requires var l := FormatLine(key, value); IsKeyLine(l) && KeyText(l) == key && SepText(l) == " =" + (" " + value[..LeadingSpace(value)])
    ensures RewriteLine(FormatLine(key, value), value) == FormatLine(key, value) <==> LeadingSpace(value) == 0
  {
    hide IsSpace, IsKeyLine, KeyText, SepText, LeadingSpace;
    var l, n := FormatLine(key, value), LeadingSpace(value);
    var sep := " =" + (" " + value[..n]);
    SepEndsBlank(value);
    assert RewriteLine(l, value) == key + sep + value && l == key + " = " + value;
    hide *;
    SameLengthJoin(key, sep, value, n);
  }

  lemma SepEndsBlank(value: string)
    ensures var sep := " =" + (" " + value[..LeadingSpace(value)]); IsSpace(sep[|sep| - 1])
  {
    var n := LeadingSpace(value);
    hide IsSpace;
    assert IsSpace(' ') by { SpaceIsBlank(); }
    if n > 0 { assert (" =" + (" " + value[..n]))[2 + n] == value[..n][n - 1]; }
  }

  lemma SpaceIsBlank()
    ensures IsSpace(' ')
  {
  }

  lemma SameLengthJoin(key: string, sep: string, value: string, n: nat)
    requires n <= |value| && sep == " =" + (" " + value[..n])
    ensures key + sep + value == key + " = " + value <==> n == 0
  {
    assert |sep| == 3 + n;
    if n == 0 {
      assert sep == " = ";
    } else {
      assert |key + sep + value| == |key| + 3 + n + |value| && |key + " = " + value| == |key| + 3 + |value|;
    }
  }

  /** A header written for a well-formed name reads back as that name. */
  lemma {:induction false} HeaderReads(name: string)
    requires WellFormedSection(name)
    ensures IsHeader("[" + name + "]") && SectionName("[" + name + "]") == name
  {
    var line := "[" + name + "]";
    TrimmedStrips(line);
    TrimmedStrips(name);
    assert line[1..|line| - 1] == name;
  }

  lemma KeyLineIsNoHeader(line: string)
    requires IsKeyLine(line)
    ensures !IsHeader(line) && !IsContinuation(line)
  {
    hide IsSpace;
    var r := RStrip(line);
    TrailingPast(line, 0);
    assert r[0] == line[0];
    LeadingIs(r, 0);
  }
}
