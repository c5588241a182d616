/** The text of an indexed formula, as ListDataExecutor reads it: a name
    written with the suffix "_index" stands for "the element of this list at
    the current index". This module says which names a formula mentions, scans
    them as the executor does, and checks that the formula assigns an indexed
    result. */
module IndexedFormula {
  import opened Base
  import opened Text

  const IndexMark := "_index"

  /** FormulaMessage: a formula, the names it mentions with "_index" (the
      tokens to replace are each name followed by "_index"), the length of
      its list parameters (-1 when unknown or for a plain assignment) and
      whether it is a null check. */
  datatype Message = Message(formula: string, names: seq<string>, size: int, nullJudge: bool)

  /** The characters that end a parameter name. */
  predicate IsKeyword(c: char)
  {
    c in "=|&+-*/,) :"
  }

  /** A keyword or '(' (which ends a function name): a name never spans one. */
  predicate IsBoundary(c: char)
  {
    IsKeyword(c) || c == '('
  }

  /** "_index" starts at p and is followed by a keyword or the end of the text. */
  predicate MarkerAt(f: string, p: int)
  {
    0 <= p && p + 6 <= |f| && f[p..p + 6] == IndexMark && (p + 6 == |f| || IsKeyword(f[p + 6]))
  }

  /** Where the name that ends at p starts: just after the last boundary before p. */
  function NameStart(f: string, p: nat): (q: nat)
    requires p <= |f|
    ensures q <= p
    ensures q == 0 || IsBoundary(f[q - 1])
    ensures forall k | q <= k < p :: !IsBoundary(f[k])
  {
    if p == 0 || IsBoundary(f[p - 1]) then p else NameStart(f, p - 1)
  }

  /** The name in front of each marker that starts before n, in text order. */
  function NamesUpTo(f: string, n: nat): seq<string>
    requires n <= |f|
  {
    if n == 0 then []
    else NamesUpTo(f, n - 1) + (if MarkerAt(f, n - 1) then [f[NameStart(f, n - 1)..n - 1]] else [])
  }

  /** The parameter names of a formula, the result name first when the
      formula starts with it; a name used twice is listed twice. */
  function Names(f: string): seq<string>
  {
    NamesUpTo(f, |f|)
  }

  /** The token a name stands for in the formula text. */
  function Token(name: string): string
  {
    name + IndexMark
  }

  /** No marker starts on a stretch without '_'. */
  lemma {:induction false} NamesSkip(f: string, p: nat, q: nat)
    requires p <= q <= |f|
    requires forall k | p <= k < q :: f[k] != '_'
    ensures NamesUpTo(f, q) == NamesUpTo(f, p)
    decreases q - p
  {
    if p < q {
      NamesSkip(f, p, q - 1);
      OnlyAtUnderscore(f, q - 1);
    }
  }

  /** A marker starts with '_'. */
  lemma OnlyAtUnderscore(f: string, p: nat)
    requires p < |f| && f[p] != '_'
    ensures !MarkerAt(f, p)
  {
    if p + 6 <= |f| {
      assert f[p..p + 6][0] == f[p];
    }
  }

  /** The names found before n come first among those found before m. */
  lemma {:induction false} NamesPrefix(f: string, n: nat, m: nat)
    requires n <= m <= |f|
    ensures |NamesUpTo(f, n)| <= |NamesUpTo(f, m)|
    ensures NamesUpTo(f, m)[..|NamesUpTo(f, n)|] == NamesUpTo(f, n)
    decreases m - n
  {
    if n < m {
      NamesPrefix(f, n, m - 1);
    }
  }

  /** Every name found is followed by "_index" in the text, and holds no
      keyword and no '(' (the two guarantees the substitution relies on). */
  lemma {:induction false} NamesAreTokens(f: string, n: nat)
    requires n <= |f|
    ensures forall k | 0 <= k < |NamesUpTo(f, n)| :: Contains(f, Token(NamesUpTo(f, n)[k]))
    ensures forall k, j | 0 <= k < |NamesUpTo(f, n)| && 0 <= j < |NamesUpTo(f, n)[k]| :: !IsBoundary(NamesUpTo(f, n)[k][j])
  {
    if n > 0 {
      NamesAreTokens(f, n - 1);
      var prev := NamesUpTo(f, n - 1);
      if MarkerAt(f, n - 1) {
        var name := f[NameStart(f, n - 1)..n - 1];
        MarkedNameIsToken(f, n - 1);
        assert NamesUpTo(f, n) == prev + [name];
      } else {
        assert NamesUpTo(f, n) == prev;
      }
    }
  }

  /** The name in front of a marker is followed by "_index" and holds no
      boundary. */
  lemma MarkedNameIsToken(f: string, p: nat)
    requires MarkerAt(f, p)
    ensures Contains(f, Token(f[NameStart(f, p)..p]))
    ensures forall j | 0 <= j < |f[NameStart(f, p)..p]| :: !IsBoundary(f[NameStart(f, p)..p][j])
  {
    var q := NameStart(f, p);
    assert f[q..p + 6] == f[q..p] + f[p..p + 6];
    assert OccursAt(f, Token(f[q..p]), q);
  }

  /** The scan of the inner loop: whether "_index" starts at i and ends at a
      keyword or the end of the text, and whether the comparison ran off the
      end of the text first. */
  method ScanMarker(f: string, i: nat) returns (matched: bool, ranOff: bool)
    requires i < |f| && f[i] == '_'
    ensures matched <==> MarkerAt(f, i)
    ensures ranOff ==> !matched && i + 6 > |f|
  {
    matched, ranOff := false, false;
    var a := i;
    var j := 1;
    while j < 6
      invariant 1 <= j <= 6 && a == i + j - 1 && a < |f|
      invariant f[i..a + 1] == IndexMark[..j]
      invariant !matched && !ranOff
      invariant j == 6 ==> !MarkerAt(f, i)
    {
      a := a + 1;
      if a == |f| {
        ranOff := true;
        return;
      }
      if f[a] != IndexMark[j] {
        if i + 6 <= |f| {
          assert f[i..i + 6][j] == f[a];
        }
        return;
      }
      assert f[i..a + 1] == f[i..a] + [f[a]];
      if j + 1 == 6 && (a + 1 == |f| || IsKeyword(f[a + 1])) {
        matched := true;
        return;
      }
      j := j + 1;
    }
  }

  /** After a boundary a new name starts. */
  lemma NameRestarts(f: string, i: nat)
    requires i < |f| && IsBoundary(f[i])
    ensures NameStart(f, i + 1) == i + 1
  {
  }

  /** Any other character extends the name in front of it. */
  lemma NameGrows(f: string, i: nat)
    requires i < |f| && !IsBoundary(f[i])
    ensures NameStart(f, i + 1) == NameStart(f, i)
    ensures f[NameStart(f, i + 1)..i + 1] == f[NameStart(f, i)..i] + [f[i]]
  {
  }

  /** The scan before character i: the names found so far, and, where a
      marker could still start at i, the buffer holding the name that ends
      there. */
  ghost predicate Scanned(f: string, i: nat, names: seq<string>, buffer: seq<char>)
  {
    i <= |f| && names == NamesUpTo(f, i) &&
    (i + 6 <= |f| && !IsBoundary(f[i]) ==> buffer == f[NameStart(f, i)..i])
  }

  /** The name scan of extractFormulaMessage: characters are collected into
      a buffer that a keyword or '(' empties; at a marker the buffer is a
      name and the scan resumes after the marker. */
  method ScanNames(f: string) returns (names: seq<string>)
    ensures names == Names(f)
  {
    names := [];
    var buffer: seq<char> := [];
    var i := 0;
    while i < |f|
      invariant Scanned(f, i, names, buffer)
      decreases |f| - i
    {
      i, names, buffer := ScanStep(f, i, names, buffer);
    }
  }

  /** One round of the scan's loop, from character i. */
  method ScanStep(f: string, i: nat, names: seq<string>, buffer: seq<char>)
    returns (next: nat, names': seq<string>, buffer': seq<char>)
    requires i < |f| && Scanned(f, i, names, buffer)
    ensures i < next && Scanned(f, next, names', buffer')
  {
    var c := f[i];
    if IsKeyword(c) || c == '(' {
      ScannedBoundary(f, i, names, buffer);
      return i + 1, names, [];
    }
    if c == '_' {
      var matched, ranOff := ScanMarker(f, i);
      if matched {
        ScannedMarker(f, i, names, buffer);
        return i + 6, names + [buffer], [];
      }
      buffer' := if ranOff then [c] else buffer + [c];
      ScannedChar(f, i, names, buffer, buffer');
      return i + 1, names, buffer';
    }
    OnlyAtUnderscore(f, i);
    ScannedChar(f, i, names, buffer, buffer + [c]);
    return i + 1, names, buffer + [c];
  }

  /** A keyword or '(' empties the buffer and ends no name. */
  lemma ScannedBoundary(f: string, i: nat, names: seq<string>, buffer: seq<char>)
    requires i < |f| && IsBoundary(f[i]) && Scanned(f, i, names, buffer)
    ensures Scanned(f, i + 1, names, [])
  {
    OnlyAtUnderscore(f, i);
    NameRestarts(f, i);
  }

  /** At a marker the buffer is the next name, and the scan resumes after
      the marker with an empty buffer. */
  lemma ScannedMarker(f: string, i: nat, names: seq<string>, buffer: seq<char>)
    requires i < |f| && f[i] == '_' && MarkerAt(f, i) && Scanned(f, i, names, buffer)
    ensures Scanned(f, i + 6, names + [buffer], [])
  {
    assert buffer == f[NameStart(f, i)..i];
    assert NamesUpTo(f, i + 1) == NamesUpTo(f, i) + [f[NameStart(f, i)..i]];
    forall k | i + 1 <= k < i + 6
      ensures f[k] != '_'
    {
      assert f[k] == f[i..i + 6][k - i] == IndexMark[k - i];
    }
    NamesSkip(f, i + 1, i + 6);
    assert i + 6 == |f| || IsBoundary(f[i + 6]);
  }

  /** Any other character joins the buffer; where no marker can follow,
      the buffer no longer matters. */
  lemma ScannedChar(f: string, i: nat, names: seq<string>, buffer: seq<char>, buffer': seq<char>)
    requires i < |f| && !IsBoundary(f[i]) && !MarkerAt(f, i) && Scanned(f, i, names, buffer)
    requires i + 7 <= |f| ==> buffer' == buffer + [f[i]]
    ensures Scanned(f, i + 1, names, buffer')
  {
    NameGrows(f, i);
  }

  /** A text that mentions "_index" is not blank. */
  lemma MarkedNotBlank(f: string)
    requires Contains(f, IndexMark)
    ensures !IsBlank(f)
  {
    var p :| 0 <= p <= |f| - |IndexMark| && OccursAt(f, IndexMark, p);
    assert f[p] == f[p..p + 6][0] == '_';
  }

  /** checkResultName: the formula is an assignment (its first '=' is not
      the start of "==") whose left side mentions "_index". */
  function CheckResultName(f: string): (r: Result<()>)
    ensures r.Ok? <==>
      '=' in f && IndexOf(f, '=') + 1 < |f| && f[IndexOf(f, '=') + 1] != '=' &&
      Contains(f[..IndexOf(f, '=')], IndexMark)
    ensures '=' !in f ==> r == Err(NotAnEquation(f))
    ensures '=' in f && IndexOf(f, '=') + 1 == |f| ==> r == Err(IndexOutOfRange)
    ensures '=' in f && IndexOf(f, '=') + 1 < |f| && f[IndexOf(f, '=') + 1] == '=' ==> r == Err(NotAnEquation(f))
    ensures r.Err? && r.error.InvalidResultName? ==> r.error.resultName == f[..IndexOf(f, '=')]
  {
    var e := IndexOf(f, '=');
    if e == -1 then Err(NotAnEquation(f))
    else if e + 1 == |f| then Err(IndexOutOfRange)
    else if f[e + 1] == '=' then Err(NotAnEquation(f))
    else if !Contains(f[..e], IndexMark) then Err(InvalidResultName(f[..e]))
    else Ok(())
  }

  /** checkDefaultFun: the formula calls default or defaultZero on the name. */
  predicate DefaultFun(f: string, name: string)
  {
    Contains(f, "default(" + name) || Contains(f, "defaultZero(" + name)
  }

  /** Thread.currentThread().getId() of the calculating thread. */
  const ThreadId := "1"

  /** The assignment a start or stop condition is wrapped in. */
  function ConditionFormula(condition: string): string
  {
    "条件公式_" + ThreadId + IndexMark + " = " + condition + " "
  }

  /** The text a wrapped condition starts with. */
  const ConditionHead := "条件公式_1_index = "

  lemma ConditionFormulaHead(condition: string)
    ensures |ConditionHead| == 15
    ensures ConditionFormula(condition)[..15] == ConditionHead
  {
    assert ConditionFormula(condition) == ConditionHead + (condition + " ");
  }

  /** A wrapped condition always passes the result-name check. */
  lemma ConditionFormulaChecked(condition: string)
    ensures CheckResultName(ConditionFormula(condition)).Ok?
  {
    var f := ConditionFormula(condition);
    ConditionFormulaHead(condition);
    assert f[13] == ConditionHead[13] == '=';
    assert f[14] == ConditionHead[14] == ' ';
    assert f[..13] == ConditionHead[..13];
    FirstEqualAt(f, 13);
    assert OccursAt(f[..13], IndexMark, 6);
  }

  /** The first name of a wrapped condition is the condition's own result
      name, whatever the condition says. */
  lemma ConditionFormulaResultName(condition: string)
    ensures |Names(ConditionFormula(condition))| > 0
    ensures Names(ConditionFormula(condition))[0] == "条件公式_1"
  {
    var f := ConditionFormula(condition);
    ConditionFormulaHead(condition);
    HeadNames(f);
    NamesPrefix(f, 7, |f|);
  }

  /** The characters of the wrapped head the name scan looks at. */
  lemma ConditionHeadChars()
    ensures ConditionHead[..6] == "条件公式_1"
    ensures ConditionHead[6..12] == IndexMark && IsKeyword(ConditionHead[12])
    ensures ConditionHead[4] == '_' && ConditionHead[5] == '1'
    ensures forall k | 0 <= k < 6 :: !IsBoundary(ConditionHead[k])
    ensures forall k | 0 <= k < 4 :: ConditionHead[k] != '_'
  {
  }

  /** The name ending at p starts at q when q follows a boundary (or is the
      start) and no boundary lies between. */
  lemma {:induction false} NameStartAt(f: string, p: nat, q: nat)
    requires q <= p <= |f|
    requires q == 0 || IsBoundary(f[q - 1])
    requires forall k | q <= k < p :: !IsBoundary(f[k])
    ensures NameStart(f, p) == q
    decreases p - q
  {
    if q < p {
      NameStartAt(f, p - 1, q);
    }
  }

  /** A marker has 'i' second. */
  lemma NoMarkerBefore(f: string, p: nat)
    requires p + 1 < |f| && f[p + 1] != 'i'
    ensures !MarkerAt(f, p)
  {
    if p + 6 <= |f| {
      assert f[p..p + 6][1] == f[p + 1];
    }
  }

  /** What a text starting with the wrapped head holds where the name scan
      looks. */
  lemma HeadChars(f: string)
    requires |f| >= 15 && f[..15] == ConditionHead
    ensures f[..6] == "条件公式_1" && f[5] == '1' && MarkerAt(f, 6)
    ensures forall k | 0 <= k < 6 :: !IsBoundary(f[k])
    ensures forall k | 0 <= k < 4 :: f[k] != '_'
  {
    ConditionHeadChars();
    forall k | 0 <= k < 15
      ensures f[k] == ConditionHead[k]
    {
      assert f[k] == f[..15][k];
    }
    assert f[6..12] == ConditionHead[6..12];
    assert f[..6] == ConditionHead[..6];
  }

  lemma HeadNames(f: string)
    requires |f| >= 15 && f[..15] == ConditionHead
    ensures NamesUpTo(f, 7) == ["条件公式_1"]
  {
    HeadChars(f);
    NameStartAt(f, 6, 0);
    NamesSkip(f, 0, 4);
    NoMarkerBefore(f, 4);
    assert NamesUpTo(f, 5) == [];
    OnlyAtUnderscore(f, 5);
    assert NamesUpTo(f, 6) == [];
    assert NamesUpTo(f, 7) == [f[NameStart(f, 6)..6]];
  }

  lemma FirstEqualAt(f: string, e: nat)
    requires e < |f| && f[e] == '=' && '=' !in f[..e]
    ensures IndexOf(f, '=') == e
  {
  }
}
