/** Edit distance and the typo-forgiving keyword match of internal/app/rules.go.
 *
 *  `Levenshtein` is the two-row dynamic program. It is proved optimal against scripts of
 *  position-based edits, and its value is proved to be a metric. `ContainsOrFuzzy` is proved
 *  against a description of words that does not mention how the text is split.
 */
module EditDistance {
  import opened Strings

  // ----- Edit scripts: the reference meaning of the distance

  datatype Edit =
    | Insert(at: nat, c: char)
    | Delete(at: nat)
    | Substitute(at: nat, c: char)

  predicate Applicable(s: string, e: Edit) {
    if e.Insert? then e.at <= |s| else e.at < |s|
  }

  function ApplyEdit(s: string, e: Edit): string
    requires Applicable(s, e)
  {
    match e
    case Insert(at, c) => s[..at] + [c] + s[at..]
    case Delete(at) => s[..at] + s[at + 1..]
    case Substitute(at, c) => s[at := c]
  }

  /** The edits of `script`, applied one after the other, turn `a` into `b`. */
  predicate Turns(script: seq<Edit>, a: string, b: string)
    decreases |script|
  {
    if script == [] then
      a == b
    else
      Applicable(a, script[0]) && Turns(script[1..], ApplyEdit(a, script[0]), b)
  }

  // ----- The table the loop fills

  function Min3(a: int, b: int, c: int): int {
    var m := if b < a then b else a;
    if c < m then c else m
  }

  function Cost(x: char, y: char): nat {
    if x == y then 0 else 1
  }

  /** Cell (i, j) of the table: the distance between the first i of `a` and the first j of `b`. */
  function Cell(a: string, i: nat, b: string, j: nat): nat
    requires i <= |a| && j <= |b|
    decreases i + j
  {
    if i == 0 then j
    else if j == 0 then i
    else Min3(Cell(a, i - 1, b, j) + 1, Cell(a, i, b, j - 1) + 1, Cell(a, i - 1, b, j - 1) + Cost(a[i - 1], b[j - 1]))
  }

  function Distance(a: string, b: string): nat {
    Cell(a, |a|, b, |b|)
  }

  // ----- Metric laws

  lemma CellUnfolds(a: string, i: nat, b: string, j: nat)
    requires 0 < i <= |a| && 0 < j <= |b|
    ensures Cell(a, i, b, j) ==
      Min3(Cell(a, i - 1, b, j) + 1, Cell(a, i, b, j - 1) + 1, Cell(a, i - 1, b, j - 1) + Cost(a[i - 1], b[j - 1]))
  {
  }

  /** A cell is at most one step from its neighbours. */
  lemma CellUpper(a: string, i: nat, b: string, j: nat)
    requires 0 < i <= |a| && 0 < j <= |b|
    ensures Cell(a, i, b, j) <= Cell(a, i - 1, b, j) + 1
    ensures Cell(a, i, b, j) <= Cell(a, i, b, j - 1) + 1
    ensures Cell(a, i, b, j) <= Cell(a, i - 1, b, j - 1) + Cost(a[i - 1], b[j - 1])
  {
  }

  /** A cell is reached from one of its neighbours. */
  lemma CellReached(a: string, i: nat, b: string, j: nat)
    requires 0 < i <= |a| && 0 < j <= |b|
    ensures
      || Cell(a, i, b, j) == Cell(a, i - 1, b, j) + 1
      || Cell(a, i, b, j) == Cell(a, i, b, j - 1) + 1
      || Cell(a, i, b, j) == Cell(a, i - 1, b, j - 1) + Cost(a[i - 1], b[j - 1])
  {
  }

  lemma {:induction false} CellBounds(a: string, i: nat, b: string, j: nat)
    requires i <= |a| && j <= |b|
    ensures i - j <= Cell(a, i, b, j) <= i + j
    ensures j - i <= Cell(a, i, b, j)
    decreases i + j
  {
    if i != 0 && j != 0 {
      hide Cell;
      CellUpper(a, i, b, j);
      CellReached(a, i, b, j);
      CellBounds(a, i - 1, b, j);
      CellBounds(a, i, b, j - 1);
      CellBounds(a, i - 1, b, j - 1);
    }
  }

  /** Against an empty prefix, everything is inserted or deleted. */
  lemma CellEdge(a: string, i: nat, b: string, j: nat)
    requires i <= |a| && j <= |b| && (i == 0 || j == 0)
    ensures Cell(a, i, b, j) == i + j
  {
  }

  lemma {:induction false} CellSymmetric(a: string, i: nat, b: string, j: nat)
    requires i <= |a| && j <= |b|
    ensures Cell(a, i, b, j) == Cell(b, j, a, i)
    decreases i + j
  {
    hide Cell;
    if i == 0 || j == 0 {
      CellEdge(a, i, b, j);
      CellEdge(b, j, a, i);
    } else {
      CellSymmetric(a, i - 1, b, j);
      CellSymmetric(a, i, b, j - 1);
      CellSymmetric(a, i - 1, b, j - 1);
      CellUnfolds(a, i, b, j);
      CellUnfolds(b, j, a, i);
    }
  }

  lemma {:induction false} CellZero(a: string, i: nat, b: string, j: nat)
    requires i <= |a| && j <= |b|
    ensures Cell(a, i, b, j) == 0 <==> a[..i] == b[..j]
    decreases i + j
  {
    if i == 0 || j == 0 {
      assert |a[..i]| == i && |b[..j]| == j;
    } else {
      CellZero(a, i - 1, b, j - 1);
      assert a[..i] == a[..i - 1] + [a[i - 1]];
      assert b[..j] == b[..j - 1] + [b[j - 1]];
    }
  }

  /** How the best way into a cell ends: with a deletion, an insertion, or along the diagonal. */
  predicate EndsWithDeletion(a: string, i: nat, b: string, j: nat)
    requires i <= |a| && j <= |b|
  {
    i > 0 && Cell(a, i, b, j) == Cell(a, i - 1, b, j) + 1
  }

  predicate EndsWithInsertion(a: string, i: nat, b: string, j: nat)
    requires i <= |a| && j <= |b|
  {
    j > 0 && Cell(a, i, b, j) == Cell(a, i, b, j - 1) + 1
  }

  lemma {:induction false} CellTriangle(a: string, i: nat, b: string, j: nat, c: string, k: nat)
    requires i <= |a| && j <= |b| && k <= |c|
    ensures Cell(a, i, c, k) <= Cell(a, i, b, j) + Cell(b, j, c, k)
    decreases i + j + k
  {
    hide Cell;
    if i == 0 || j == 0 || k == 0 {
      CellBounds(a, i, c, k);
      CellBounds(a, i, b, j);
      CellBounds(b, j, c, k);
      CellEdges(a, i, b, j, c, k);
    } else if EndsWithDeletion(a, i, b, j) {
      CellUpper(a, i, c, k);
      CellTriangle(a, i - 1, b, j, c, k);
    } else if EndsWithInsertion(b, j, c, k) {
      CellUpper(a, i, c, k);
      CellTriangle(a, i, b, j, c, k - 1);
    } else {
      CellTriangleInner(a, i, b, j, c, k);
    }
  }

  lemma CellEdges(a: string, i: nat, b: string, j: nat, c: string, k: nat)
    requires i <= |a| && j <= |b| && k <= |c|
    ensures i == 0 || j == 0 ==> Cell(a, i, b, j) == i + j
    ensures j == 0 || k == 0 ==> Cell(b, j, c, k) == j + k
    ensures i == 0 || k == 0 ==> Cell(a, i, c, k) == i + k
  {
    hide Cell;
    if i == 0 || j == 0 {
      CellEdge(a, i, b, j);
    }
    if j == 0 || k == 0 {
      CellEdge(b, j, c, k);
    }
    if i == 0 || k == 0 {
      CellEdge(a, i, c, k);
    }
  }

  /** The cases that consume the last character of the middle string. */
  lemma {:induction false} CellTriangleInner(a: string, i: nat, b: string, j: nat, c: string, k: nat)
    requires 0 < i <= |a| && 0 < j <= |b| && 0 < k <= |c|
    requires !EndsWithDeletion(a, i, b, j) && !EndsWithInsertion(b, j, c, k)
    ensures Cell(a, i, c, k) <= Cell(a, i, b, j) + Cell(b, j, c, k)
    decreases i + j + k, 0
  {
    hide Cell;
    CellReached(a, i, b, j);
    CellReached(b, j, c, k);
    CellUpper(a, i, c, k);
    var i' := if EndsWithInsertion(a, i, b, j) then i else i - 1;
    var k' := if EndsWithDeletion(b, j, c, k) then k else k - 1;
    CellTriangle(a, i', b, j - 1, c, k');
  }

  /** The distance is a metric on strings. */
  lemma DistanceIsMetric(a: string, b: string, c: string)
    ensures Distance(a, b) == 0 <==> a == b
    ensures Distance(a, b) == Distance(b, a)
    ensures Distance(a, c) <= Distance(a, b) + Distance(b, c)
    ensures |a| - |b| <= Distance(a, b) && |b| - |a| <= Distance(a, b) && Distance(a, b) <= |a| + |b|
  {
    CellBounds(a, |a|, b, |b|);
    CellZero(a, |a|, b, |b|);
    assert a[..|a|] == a && b[..|b|] == b;
    CellSymmetric(a, |a|, b, |b|);
    CellTriangle(a, |a|, b, |b|, c, |c|);
  }

  // ----- Optimality

  /** Walking a common run down the diagonal costs nothing. */
  lemma {:induction false} CellDiagonal(a: string, i: nat, b: string, j: nat, n: nat)
    requires i + n <= |a| && j + n <= |b|
    requires a[i..i + n] == b[j..j + n]
    ensures Cell(a, i + n, b, j + n) <= Cell(a, i, b, j)
  {
    if n != 0 {
      assert a[i..i + n][..n - 1] == a[i..i + n - 1] && b[j..j + n][..n - 1] == b[j..j + n - 1];
      assert a[i..i + n][n - 1] == b[j..j + n][n - 1];
      CellDiagonal(a, i, b, j, n - 1);
      if i + n - 1 == 0 || j + n - 1 == 0 {
        CellBounds(a, i + n, b, j + n);
      }
    }
  }

  /** Strings that agree but for at most one place, reached at cells (i, j), are within one of each other. */
  lemma NearAfterCommonTail(s: string, i: nat, t: string, j: nat, n: nat)
    requires i + n == |s| && j + n == |t| && s[i..] == t[j..]
    requires Cell(s, i, t, j) <= 1
    ensures Distance(s, t) <= 1
  {
    assert s[i..i + n] == s[i..] && t[j..j + n] == t[j..];
    CellDiagonal(s, i, t, j, n);
  }

  lemma CommonHead(s: string, t: string, i: nat)
    requires i <= |s| && i <= |t| && s[..i] == t[..i]
    ensures Cell(s, i, t, i) == 0
    ensures i < |t| ==> Cell(s, i, t, i + 1) <= 1
    ensures i < |s| ==> Cell(s, i + 1, t, i) <= 1
    ensures i < |s| && i < |t| ==> Cell(s, i + 1, t, i + 1) <= 1
  {
    CellZero(s, i, t, i);
  }

  /** A single edit moves a string by at most one. */
  lemma OneEditIsNear(s: string, e: Edit)
    requires Applicable(s, e)
    ensures Distance(s, ApplyEdit(s, e)) <= 1
  {
    var t, i := ApplyEdit(s, e), e.at;
    CommonHead(s, t, i);
    match e
    case Insert(_, _) => NearAfterCommonTail(s, i, t, i + 1, |s| - i);
    case Delete(_) => NearAfterCommonTail(s, i + 1, t, i, |t| - i);
    case Substitute(_, _) => NearAfterCommonTail(s, i + 1, t, i + 1, |s| - i - 1);
  }

  /** No script is shorter than the distance. */
  lemma {:induction false} NoShorterScript(script: seq<Edit>, a: string, b: string)
    requires Turns(script, a, b)
    ensures Distance(a, b) <= |script|
    decreases |script|
  {
    if script == [] {
      DistanceIsMetric(a, b, b);
    } else {
      var next := ApplyEdit(a, script[0]);
      NoShorterScript(script[1..], next, b);
      OneEditIsNear(a, script[0]);
      DistanceIsMetric(a, next, b);
    }
  }

  /** Prefixing one edit to a script. */
  lemma PrependEdit(a: string, e: Edit, via: string, tail: seq<Edit>, b: string)
    requires Applicable(a, e) && ApplyEdit(a, e) == via && Turns(tail, via, b)
    ensures Turns([e] + tail, a, b)
  {
    assert ([e] + tail)[1..] == tail;
  }

  // How each edit acts at the boundary between a prefix of `a` and a tail.

  lemma SplitLast(a: string, i: nat, rest: string)
    requires 0 < i <= |a|
    ensures a[..i] + rest == a[..i - 1] + ([a[i - 1]] + rest)
  {
  }

  lemma InsertAtBoundary(a: string, i: nat, c: char, rest: string)
    requires i <= |a|
    ensures ApplyEdit(a[..i] + rest, Insert(i, c)) == a[..i] + ([c] + rest)
  {
    var from := a[..i] + rest;
    assert from[..i] == a[..i] && from[i..] == rest;
  }

  lemma DeleteAtBoundary(a: string, i: nat, rest: string)
    requires 0 < i <= |a|
    ensures ApplyEdit(a[..i] + rest, Delete(i - 1)) == a[..i - 1] + rest
  {
    var from := a[..i] + rest;
    assert from[..i - 1] == a[..i - 1] && from[i..] == rest;
  }

  lemma SubstituteAtBoundary(a: string, i: nat, c: char, rest: string)
    requires 0 < i <= |a|
    ensures ApplyEdit(a[..i] + rest, Substitute(i - 1, c)) == a[..i - 1] + ([c] + rest)
  {
  }

  /** A script of exactly the distance exists; `rest` is the untouched tail both strings share. */
  lemma {:induction false} ScriptFor(a: string, i: nat, b: string, j: nat, rest: string) returns (script: seq<Edit>)
    requires i <= |a| && j <= |b|
    ensures |script| == Cell(a, i, b, j)
    ensures Turns(script, a[..i] + rest, b[..j] + rest)
    decreases i + j
  {
    hide Turns;
    if i == 0 && j == 0 {
      NothingToDo(a, b, rest);
      script := [];
    } else if j == 0 || EndsWithDeletion(a, i, b, j) {
      var tail := ScriptFor(a, i - 1, b, j, rest);
      script := OverDeletion(a, i, rest, tail, b[..j] + rest);
    } else {
      script := ScriptForLast(a, i, b, j, rest);
    }
  }

  lemma NothingToDo(a: string, b: string, rest: string)
    ensures Turns([], a[..0] + rest, b[..0] + rest)
  {
  }

  lemma OverDeletion(a: string, i: nat, rest: string, tail: seq<Edit>, to: string) returns (script: seq<Edit>)
    requires 0 < i <= |a| && Turns(tail, a[..i - 1] + rest, to)
    ensures Turns(script, a[..i] + rest, to) && |script| == |tail| + 1
  {
    DeleteAtBoundary(a, i, rest);
    PrependEdit(a[..i] + rest, Delete(i - 1), a[..i - 1] + rest, tail, to);
    script := [Delete(i - 1)] + tail;
  }

  /** The remaining cases, where the last character of `b` is inserted, substituted or kept. */
  lemma {:induction false} ScriptForLast(a: string, i: nat, b: string, j: nat, rest: string) returns (script: seq<Edit>)
    requires i <= |a| && 0 < j <= |b| && !EndsWithDeletion(a, i, b, j)
    ensures |script| == Cell(a, i, b, j)
    ensures Turns(script, a[..i] + rest, b[..j] + rest)
    decreases i + j, 0
  {
    hide Turns;
    var c := b[j - 1];
    var kept, to := [c] + rest, b[..j] + rest;
    assert b[..j - 1] + kept == to by {
      SplitLast(b, j, rest);
    }
    if i == 0 || EndsWithInsertion(a, i, b, j) {
      var tail := ScriptFor(a, i, b, j - 1, kept);
      script := OverInsertion(a, i, c, rest, tail, to);
    } else {
      var tail := ScriptFor(a, i - 1, b, j - 1, kept);
      script := OverDiagonal(a, i, c, rest, tail, to);
    }
  }

  lemma OverInsertion(a: string, i: nat, c: char, rest: string, tail: seq<Edit>, to: string) returns (script: seq<Edit>)
    requires i <= |a| && Turns(tail, a[..i] + ([c] + rest), to)
    ensures Turns(script, a[..i] + rest, to) && |script| == |tail| + 1
  {
    InsertAtBoundary(a, i, c, rest);
    PrependEdit(a[..i] + rest, Insert(i, c), a[..i] + ([c] + rest), tail, to);
    script := [Insert(i, c)] + tail;
  }

  lemma OverDiagonal(a: string, i: nat, c: char, rest: string, tail: seq<Edit>, to: string) returns (script: seq<Edit>)
    requires 0 < i <= |a| && Turns(tail, a[..i - 1] + ([c] + rest), to)
    ensures Turns(script, a[..i] + rest, to) && |script| == |tail| + Cost(a[i - 1], c)
  {
    if a[i - 1] == c {
      SplitLast(a, i, rest);
      script := tail;
    } else {
      SubstituteAtBoundary(a, i, c, rest);
      PrependEdit(a[..i] + rest, Substitute(i - 1, c), a[..i - 1] + ([c] + rest), tail, to);
      script := [Substitute(i - 1, c)] + tail;
    }
  }

  /** `d` is the length of a shortest script from `a` to `b`. */
  ghost predicate IsShortest(a: string, b: string, d: nat) {
    && (exists script :: Turns(script, a, b) && |script| == d)
    && (forall script :: Turns(script, a, b) ==> d <= |script|)
  }

  /** The value `Levenshtein` returns is the length of a shortest script. */
  lemma DistanceIsShortest(a: string, b: string)
    ensures IsShortest(a, b, Distance(a, b))
  {
    var best := ScriptFor(a, |a|, b, |b|, []);
    assert a[..|a|] + [] == a && b[..|b|] + [] == b;
    forall script | Turns(script, a, b) ensures Distance(a, b) <= |script| {
      NoShorterScript(script, a, b);
    }
  }

  /** The two-row table: `prev` and `cur` trade places after every row. */
  method Levenshtein(a: string, b: string) returns (d: nat)
    ensures d == Distance(a, b)
  {
    if a == b {
      DistanceIsMetric(a, b, b);
      return 0;
    }
    if |a| == 0 {
      return |b|;
    }
    if |b| == 0 {
      return |a|;
    }
    var prev, cur := new nat[|b| + 1], new nat[|b| + 1];
    for j := 0 to prev.Length
      invariant forall k :: 0 <= k < j ==> prev[k] == k
    {
      prev[j] := j;
    }
    assert IsRow(prev[..], a, 0, b);
    var i := 1;
    while i <= |a|
      invariant 1 <= i <= |a| + 1
      invariant prev != cur && fresh(prev) && fresh(cur) && prev.Length == cur.Length == |b| + 1
      invariant IsRow(prev[..], a, i - 1, b)
    {
      cur[0] := i;
      var j := 1;
      while j <= |b|
        invariant 1 <= j <= |b| + 1
        invariant IsRow(prev[..], a, i - 1, b)
        invariant IsRow(cur[..j], a, i, b)
      {
        var cost := 1;
        if a[i - 1] == b[j - 1] {
          cost := 0;
        }
        cur[j] := Min3(prev[j] + 1, cur[j - 1] + 1, prev[j - 1] + cost);
        NextCell(prev[..], cur[..j], a, i, b, cur[j]);
        assert cur[..j + 1] == cur[..j] + [cur[j]];
        j := j + 1;
      }
      assert cur[..j] == cur[..];
      prev, cur := cur, prev;
      i := i + 1;
    }
    return prev[|b|];
  }

  /** `row` holds the first cells of row `i`. */
  ghost predicate IsRow(row: seq<nat>, a: string, i: nat, b: string) {
    i <= |a| && |row| <= |b| + 1 && forall k :: 0 <= k < |row| ==> row[k] == Cell(a, i, b, k)
  }

  /** One more cell of a row, from the row above and the cell to its left. */
  lemma NextCell(above: seq<nat>, row: seq<nat>, a: string, i: nat, b: string, next: nat)
    requires 0 < i <= |a| && |above| == |b| + 1 && 0 < |row| <= |b|
    requires IsRow(above, a, i - 1, b) && IsRow(row, a, i, b)
    requires next == Min3(above[|row|] + 1, row[|row| - 1] + 1, above[|row| - 1] + Cost(a[i - 1], b[|row| - 1]))
    ensures IsRow(row + [next], a, i, b)
  {
    var j := |row|;
    assert next == Cell(a, i, b, j);
  }

  // ----- Words of a text

  predicate IsPunctuation(c: char) {
    c in ".,!?;:'\""
  }

  /** Full stop, comma, exclamation and question mark, semicolon, colon, single and double quote. */
  lemma Punctuation(c: char)
    ensures IsPunctuation(c) <==> c as int in {46, 44, 33, 63, 59, 58, 39, 34}
  {
  }

  predicate OccursAt(text: string, part: string, i: nat) {
    i + |part| <= |text| && text[i..i + |part|] == part
  }

  predicate HasSubstring(text: string, part: string) {
    exists i: nat :: i <= |text| && OccursAt(text, part, i)
  }

  predicate NoSpaceIn(s: string, i: nat, j: nat) {
    forall k :: i <= k < j && k < |s| ==> !IsSpace(s[k])
  }

  /** text[i..j] is a word: a non-empty run without white space that cannot be extended. */
  predicate IsWord(text: string, i: nat, j: nat) {
    && i < j <= |text|
    && NoSpaceIn(text, i, j)
    && (i == 0 || IsSpace(text[i - 1]))
    && (j == |text| || IsSpace(text[j]))
  }

  function WordEnd(s: string, i: nat): (j: nat)
    requires i <= |s|
    ensures i <= j <= |s| && NoSpaceIn(s, i, j) && (j == |s| || IsSpace(s[j]))
    decreases |s| - i
  {
    if i == |s| || IsSpace(s[i]) then i else WordEnd(s, i + 1)
  }

  /** The words of the text from position `i` on, in order. */
  function FieldsFrom(s: string, i: nat): seq<string>
    requires i <= |s|
    decreases |s| - i
  {
    if i == |s| then []
    else if IsSpace(s[i]) then FieldsFrom(s, i + 1)
    else [s[i..WordEnd(s, i)]] + FieldsFrom(s, WordEnd(s, i))
  }

  function Fields(s: string): seq<string> {
    FieldsFrom(s, 0)
  }

  lemma {:induction false} WordIsField(s: string, from: nat, i: nat, j: nat) returns (k: nat)
    requires IsWord(s, i, j) && from <= i
    ensures k < |FieldsFrom(s, from)| && FieldsFrom(s, from)[k] == s[i..j]
    decreases |s| - from
  {
    if IsSpace(s[from]) {
      k := WordIsField(s, from + 1, i, j);
    } else if i == from {
      assert j == WordEnd(s, from);
      k := 0;
    } else {
      assert WordEnd(s, from) < i;
      k := WordIsField(s, WordEnd(s, from), i, j);
      k := k + 1;
    }
  }

  lemma {:induction false} FieldIsWord(s: string, from: nat, k: nat) returns (i: nat, j: nat)
    requires from <= |s| && k < |FieldsFrom(s, from)|
    requires from == 0 || IsSpace(s[from - 1]) || from == |s| || IsSpace(s[from])
    ensures IsWord(s, i, j) && FieldsFrom(s, from)[k] == s[i..j]
    decreases |s| - from
  {
    if IsSpace(s[from]) {
      i, j := FieldIsWord(s, from + 1, k);
    } else if k == 0 {
      i, j := from, WordEnd(s, from);
    } else {
      i, j := FieldIsWord(s, WordEnd(s, from), k - 1);
    }
  }

  function TrimLeft(s: string): string {
    if s != "" && IsPunctuation(s[0]) then TrimLeft(s[1..]) else s
  }

  function TrimRight(s: string): string {
    if s != "" && IsPunctuation(s[|s| - 1]) then TrimRight(s[..|s| - 1]) else s
  }

  function Trim(s: string): string {
    TrimRight(TrimLeft(s))
  }

  lemma {:induction false} TrimLeftCuts(s: string) returns (i: nat)
    ensures i <= |s| && TrimLeft(s) == s[i..]
    ensures forall k :: 0 <= k < i ==> IsPunctuation(s[k])
    ensures i < |s| ==> !IsPunctuation(s[i])
  {
    i := 0;
    if s != "" && IsPunctuation(s[0]) {
      i := TrimLeftCuts(s[1..]);
      i := i + 1;
    }
  }

  lemma {:induction false} TrimRightCuts(s: string) returns (j: nat)
    ensures j <= |s| && TrimRight(s) == s[..j]
    ensures forall k :: j <= k < |s| ==> IsPunctuation(s[k])
    ensures j > 0 ==> !IsPunctuation(s[j - 1])
  {
    j := |s|;
    if s != "" && IsPunctuation(s[|s| - 1]) {
      j := TrimRightCuts(s[..|s| - 1]);
    }
  }

  /** A trimmed token is what is left when exactly the punctuation at its ends is cut. */
  lemma TrimCuts(s: string) returns (i: nat, j: nat)
    ensures i <= j <= |s| && Trim(s) == s[i..j]
    ensures forall k :: 0 <= k < i || j <= k < |s| ==> IsPunctuation(s[k])
    ensures i < j ==> !IsPunctuation(s[i]) && !IsPunctuation(s[j - 1])
  {
    i := TrimLeftCuts(s);
    j := TrimRightCuts(TrimLeft(s));
    j := i + j;
  }

  /** With the punctuation at its ends trimmed, the token is long enough and within two edits. */
  predicate NearToken(token: string, keyword: string) {
    |Trim(token)| >= 4 && Distance(Trim(token), keyword) <= 2
  }

  /** Some word of the text is near the keyword. */
  ghost predicate HasNearWord(text: string, keyword: string) {
    exists i: nat, j: nat :: IsWord(text, i, j) && NearToken(text[i..j], keyword)
  }

  ghost predicate Accepts(text: string, keyword: string) {
    || HasSubstring(text, keyword)
    || (|keyword| >= 4 && ' ' !in keyword && HasNearWord(text, keyword))
  }

  lemma NearFieldsAreNearWords(text: string, keyword: string)
    ensures HasNearWord(text, keyword) <==> exists k :: 0 <= k < |Fields(text)| && NearToken(Fields(text)[k], keyword)
  {
    if k :| 0 <= k < |Fields(text)| && NearToken(Fields(text)[k], keyword) {
      var i, j := FieldIsWord(text, 0, k);
      assert NearToken(text[i..j], keyword);
    }
    if i: nat, j: nat :| IsWord(text, i, j) && NearToken(text[i..j], keyword) {
      var k := WordIsField(text, 0, i, j);
      assert NearToken(Fields(text)[k], keyword);
    }
  }

  method ContainsOrFuzzy(text: string, keyword: string) returns (r: bool)
    ensures r <==> Accepts(text, keyword)
  {
    if HasSubstring(text, keyword) {
      return true;
    }
    if |keyword| < 4 || ' ' in keyword {
      return false;
    }
    NearFieldsAreNearWords(text, keyword);
    var tokens := Fields(text);
    var n := 0;
    while n < |tokens|
      invariant 0 <= n <= |tokens|
      invariant forall k :: 0 <= k < n ==> !NearToken(tokens[k], keyword)
    {
      var tok := Trim(tokens[n]);
      if |tok| >= 4 {
        var d := Levenshtein(tok, keyword);
        if d <= 2 {
          assert NearToken(tokens[n], keyword);
          return true;
        }
      }
      n := n + 1;
    }
    return false;
  }

  lemma MiddleIsWord(left: string, word: string, right: string)
    requires word != "" && NoSpaceIn(word, 0, |word|)
    requires left == "" || IsSpace(left[|left| - 1])
    requires right == "" || IsSpace(right[0])
    ensures var text := left + word + right;
      IsWord(text, |left|, |left| + |word|) && text[|left|..|left| + |word|] == word
  {
  }

  /** A keyword mistyped by at most two edits is still accepted wherever it stands as a word. */
  lemma TypoIsForgiven(left: string, word: string, right: string, keyword: string, script: seq<Edit>)
    requires |keyword| >= 4 && ' ' !in keyword
    requires Turns(script, keyword, word) && |script| <= 2
    requires |word| >= 4 && NoSpaceIn(word, 0, |word|)
    requires !IsPunctuation(word[0]) && !IsPunctuation(word[|word| - 1])
    requires left == "" || IsSpace(left[|left| - 1])
    requires right == "" || IsSpace(right[0])
    ensures Accepts(left + word + right, keyword)
  {
    MiddleIsWord(left, word, right);
    NearAfterScript(keyword, word, script);
    var i, j := |left|, |left| + |word|;
    assert IsWord(left + word + right, i, j) && NearToken((left + word + right)[i..j], keyword);
  }

  /** Nothing else is accepted: without the keyword itself, a word of the text must be two edits away, both
   *  being long enough and the keyword a single word.
   */
  lemma AcceptedIsNear(text: string, keyword: string) returns (i: nat, j: nat, script: seq<Edit>)
    requires Accepts(text, keyword) && !HasSubstring(text, keyword)
    ensures |keyword| >= 4 && ' ' !in keyword
    ensures IsWord(text, i, j) && |Trim(text[i..j])| >= 4
    ensures |script| <= 2 && Turns(script, Trim(text[i..j]), keyword)
  {
    i, j :| IsWord(text, i, j) && NearToken(text[i..j], keyword);
    DistanceIsShortest(Trim(text[i..j]), keyword);
    script :| Turns(script, Trim(text[i..j]), keyword) && |script| == Distance(Trim(text[i..j]), keyword);
  }

  lemma NearAfterScript(keyword: string, word: string, script: seq<Edit>)
    requires Turns(script, keyword, word) && |script| <= 2
    requires |word| >= 4 && !IsPunctuation(word[0]) && !IsPunctuation(word[|word| - 1])
    ensures NearToken(word, keyword)
  {
    NoShorterScript(script, keyword, word);
    DistanceIsMetric(word, keyword, word);
    assert Trim(word) == word;
  }
}
