/** The line grammar of the INI editor, character by character, and where a new key goes. */
module IniGrammar {
  import opened IniText
  import opened IniSpec

  /** What is between the ends of a line starts at its first and ends at its last character that is no blank. */
  lemma {:induction false} StripIsMiddle(line: string)
    ensures Strip(line) == "" <==> AllSpace(line)
    ensures LeadingSpace(line) < |line| ==>
              LeadingSpace(line) < TrailingSpace(line) && Strip(line) == line[LeadingSpace(line)..TrailingSpace(line)]
    ensures LeadingSpace(line) == |line| <==> AllSpace(line)
  {
    hide IsSpace;
    var n, t := LeadingSpace(line), TrailingSpace(line);
    if n == |line| {
      assert line[..n] == line;
      AllSpaceStrips(line);
    } else {
      assert !AllSpace(line);
      TrailingPast(line, n);
      assert line[..t][..n] == line[..n] && line[..t][n] == line[n];
      LeadingIs(line[..t], n);
      assert line[..t][n..] == line[n..t];
    }
  }

  /** A line is blank exactly when it holds blanks only. */
  lemma {:induction false} BlankExactly(line: string)
    ensures Blank(line) <==> forall i :: 0 <= i < |line| ==> IsSpace(line[i])
  {
    hide IsSpace, Strip;
    StripIsMiddle(line);
  }

  /** A comment starts with a semicolon or a hash, blanks aside; a continuation is indented and is no comment. */
  lemma {:induction false} IndentedExactly(line: string)
    ensures IsComment(line) <==> LeadingSpace(line) < |line| && line[LeadingSpace(line)] in {';', '#'}
    ensures IsContinuation(line) <==> 0 < LeadingSpace(line) < |line| && line[LeadingSpace(line)] !in {';', '#'}
  {
    hide IsSpace, Strip;
    StripIsMiddle(line);
    var n := LeadingSpace(line);
    if 0 < n { assert line[..n][0] == line[0]; }
  }

  /** A key line starts with no blank, delimiter, comment sign or bracket, and has a delimiter. */
  lemma {:induction false} KeyLineExactly(line: string)
    ensures IsKeyLine(line) <==> line != "" && !IsSpace(line[0]) && line[0] !in {'=', ':', ';', '#', '['} && ('=' in line || ':' in line)
  {
    hide IsSpace;
    var q := SepAt(line);
    if q < |line| {
      assert line[q] in line;
    }
    if '=' in line || ':' in line {
      var i :| 0 <= i < |line| && Delimiter(line[i]);
    }
  }

  /** A header is a bracketed text without a closing bracket inside, blanks around it aside; its name is that text,
      trimmed. */
  lemma {:induction false} HeaderExactly(line: string)
    ensures var a, z := LeadingSpace(line), TrailingSpace(line) - 1;
            && (IsHeader(line) <==> a + 2 <= z && line[a] == '[' && line[z] == ']' && forall i :: a < i < z ==> line[i] != ']')
            && (IsHeader(line) ==> a + 2 <= z && SectionName(line) == Strip(line[a + 1..z]))
  {
    hide IsSpace, Strip;
    StripIsMiddle(line);
    var a, e := LeadingSpace(line), TrailingSpace(line);
    if a < |line| {
      var t := line[a..e];
      if |t| >= 3 {
        assert t[1..|t| - 1] == line[a + 1..e - 1];
        Inner(line, a + 1, e - 1);
      }
    }
  }

  lemma Inner(line: string, i: nat, j: nat)
    requires i <= j <= |line|
    ensures ']' in line[i..j] <==> exists k :: i <= k < j && line[k] == ']'
  {
    if k :| i <= k < j && line[k] == ']' {
      assert line[i..j][k - i] == ']';
    }
  }

  /** A new key goes behind the last key line of its section and the continuation lines of that key, or right behind
      the header when there is no key; so it is the last key and takes no key's continuation lines from it. */
  lemma {:induction false} InsertExactly(ls: seq<string>, s: nat, e: nat, p: nat)
    requires s < e <= |ls|
    ensures p == InsertAt(ls, s, e)
            <==> && s < p <= e && (forall m :: p <= m < e ==> !IsKeyLine(ls[m]))
                 && (p < e && p > s + 1 ==> !IsContinuation(ls[p]))
                 && (p > s + 1 ==> exists k :: s < k < p && BehindKey(ls, k, p))
                 && (p == s + 1 ==> forall m :: s < m < e ==> !IsKeyLine(ls[m]))
  {
    hide IsKeyLine, IsContinuation;
    var m := LastKey(ls, s, e);
    var q := InsertAt(ls, s, e);
    forall j | m < j < q ensures IsContinuation(ls[j]) && !IsKeyLine(ls[j]) {
      ContinuationIsNoKey(ls[j]);
    }
    if m > s { assert BehindKey(ls, m, q); }
    if s < p <= e && (forall j :: p <= j < e ==> !IsKeyLine(ls[j])) && (p < e && p > s + 1 ==> !IsContinuation(ls[p]))
       && (p > s + 1 ==> exists k :: s < k < p && BehindKey(ls, k, p)) && (p == s + 1 ==> forall j :: s < j < e ==> !IsKeyLine(ls[j]))
    {
      SamePlace(ls, s, e, p);
    }
  }

  /** A key line with only its continuation lines up to p. */
  ghost predicate BehindKey(ls: seq<string>, k: nat, p: nat)
    requires k < p <= |ls|
  {
    IsKeyLine(ls[k]) && forall j :: k < j < p ==> IsContinuation(ls[j])
  }

  lemma ContinuationIsNoKey(line: string)
    requires IsContinuation(line)
    ensures !IsKeyLine(line)
  {
    IndentedExactly(line);
    KeyLineExactly(line);
    hide IsContinuation, IsKeyLine, IsSpace;
    var n := LeadingSpace(line);
    assert line[..n][0] == line[0];
  }

  lemma SamePlace(ls: seq<string>, s: nat, e: nat, p: nat)
    requires s < p <= e <= |ls| && (forall m :: p <= m < e ==> !IsKeyLine(ls[m]))
    requires p < e && p > s + 1 ==> !IsContinuation(ls[p])
    requires p > s + 1 ==> exists k :: s < k < p && BehindKey(ls, k, p)
    requires p == s + 1 ==> forall m :: s < m < e ==> !IsKeyLine(ls[m])
    ensures p == InsertAt(ls, s, e)
  {
    hide IsKeyLine, IsContinuation;
    var m := LastKey(ls, s, e);
    if p > s + 1 {
      var k :| s < k < p && BehindKey(ls, k, p);
      forall j | k < j < p ensures !IsKeyLine(ls[j]) {
        ContinuationIsNoKey(ls[j]);
      }
      assert m == k;
    }
  }
}
