/**
 Typo matching in the entry search: an early-exit Levenshtein distance over two
 swapped rows, and the score of the closest term. The distance is tied to what
 it is meant to be, the least number of single-character edits.
 */
module EditDistance {
  import opened Texts
  import opened Wrappers

  // ------------------------------------------------------------ edit scripts

  datatype Edit = Insert(at: nat, c: char) | Delete(at: nat) | Substitute(at: nat, c: char)

  predicate Applies(e: Edit, s: Text) {
    match e
    case Insert(at, _) => at <= |s|
    case Delete(at) => at < |s|
    case Substitute(at, _) => at < |s|
  }

  function Apply(e: Edit, s: Text): Text
    requires Applies(e, s)
  {
    match e
    case Insert(at, c) => s[..at] + [c] + s[at..]
    case Delete(at) => s[..at] + s[at + 1..]
    case Substitute(at, c) => s[at := c]
  }

  /** Applied one after the other, the edits turn `a` into `b`. */
  ghost predicate Turns(script: seq<Edit>, a: Text, b: Text)
    decreases |script|
  {
    if script == [] then a == b
    else Applies(script[0], a) && Turns(script[1..], Apply(script[0], a), b)
  }

  /** `d` is the least number of edits that turn `a` into `b`. */
  ghost predicate IsDistance(a: Text, b: Text, d: nat) {
    && (exists script :: Turns(script, a, b) && |script| == d)
    && (forall script :: Turns(script, a, b) ==> d <= |script|)
  }

  // ----------------------------------------------------- the recurrence

  function Min(x: nat, y: nat): nat { if x < y then x else y }

  function Init(s: Text): Text
    requires s != []
  {
    s[..|s| - 1]
  }

  function Last(s: Text): char
    requires s != []
  {
    s[|s| - 1]
  }

  function Distance(a: Text, b: Text): nat
    decreases |a| + |b|
  {
    if a == [] then |b|
    else if b == [] then |a|
    else Min(Min(Distance(Init(a), b) + 1, Distance(a, Init(b)) + 1),
             Distance(Init(a), Init(b)) + if Last(a) == Last(b) then 0 else 1)
  }

  // ---------------------------------------- no script is shorter than that

  /** Dropping or adding a last character moves the distance by at most one. */
  lemma {:induction false} DistanceSteps(a: Text, b: Text)
    ensures a != [] ==> Distance(a, b) <= Distance(Init(a), b) + 1
    ensures b != [] ==> Distance(a, b) <= Distance(a, Init(b)) + 1
  {
  }

  lemma {:induction false} DistanceToSelf(a: Text)
    ensures Distance(a, a) == 0
    decreases |a|
  {
    if a != [] {
      DistanceToSelf(Init(a));
    }
  }

  /** Where an edit of `a` leaves the last character alone, it is an edit of the rest. */
  lemma EditBeforeLast(e: Edit, a: Text)
    requires Applies(e, a) && a != [] && e.at < |a| - (if e.Insert? then 0 else 1)
    ensures Applies(e, Init(a))
    ensures Apply(e, a) != [] && Last(Apply(e, a)) == Last(a) && Init(Apply(e, a)) == Apply(e, Init(a))
  {
  }

  /** The distance is at least the difference in length. */
  lemma {:induction false} LengthBound(a: Text, b: Text)
    ensures Distance(a, b) + |a| >= |b| && Distance(a, b) + |b| >= |a|
    decreases |a| + |b|
  {
    if a != [] && b != [] {
      LengthBound(Init(a), b);
      LengthBound(a, Init(b));
      LengthBound(Init(a), Init(b));
    }
  }

  /** One edit changes the distance to anything by at most one. */
  lemma {:induction false} OneEdit(e: Edit, a: Text, b: Text)
    requires Applies(e, a)
    ensures Distance(a, b) <= Distance(Apply(e, a), b) + 1
    decreases |a| + |b|
  {
    var a' := Apply(e, a);
    DistanceSteps(a, b);
    if b == [] {
    } else if a == [] {
      LengthBound(a', b);
    } else if e.at < |a| - (if e.Insert? then 0 else 1) {
      EditBeforeLast(e, a);
      OneEdit(e, Init(a), b);
      OneEdit(e, a, Init(b));
      OneEdit(e, Init(a), Init(b));
    } else {
      OneEdit(e, a, Init(b));
      match e
      case Insert(_, c) =>
        assert Init(a') == a;
      case Delete(_) =>
        assert a' == Init(a);
      case Substitute(_, c) =>
        assert Init(a') == Init(a);
        DistanceSteps(Init(a), b);
    }
  }

  lemma {:induction false} NoShorterScript(script: seq<Edit>, a: Text, b: Text)
    requires Turns(script, a, b)
    ensures Distance(a, b) <= |script|
    decreases |script|
  {
    if script == [] {
      DistanceToSelf(a);
    } else {
      NoShorterScript(script[1..], Apply(script[0], a), b);
      OneEdit(script[0], a, b);
    }
  }

  // --------------------------------------------------- and one has that length

  lemma {:induction false} TurnsThen(first: seq<Edit>, then_: seq<Edit>, a: Text, b: Text, c: Text)
    requires Turns(first, a, b) && Turns(then_, b, c)
    ensures Turns(first + then_, a, c)
    decreases |first|
  {
    if first == [] {
      assert first + then_ == then_;
    } else {
      assert (first + then_)[1..] == first[1..] + then_;
      TurnsThen(first[1..], then_, Apply(first[0], a), b, c);
    }
  }

  /** A script works just as well in front of a further character. */
  lemma {:induction false} TurnsBefore(script: seq<Edit>, a: Text, b: Text, c: char)
    requires Turns(script, a, b)
    ensures Turns(script, a + [c], b + [c])
    decreases |script|
  {
    if script != [] {
      var a' := Apply(script[0], a);
      TurnsBefore(script[1..], a', b, c);
      assert Apply(script[0], a + [c]) == a' + [c];
    }
  }

  lemma Single(e: Edit, a: Text, b: Text)
    requires Applies(e, a) && Apply(e, a) == b
    ensures Turns([e], a, b)
  {
  }

  lemma ThenInsert(script: seq<Edit>, a: Text, b: Text)
    requires b != [] && Turns(script, a, Init(b))
    ensures Turns(script + [Insert(|b| - 1, Last(b))], a, b)
  {
    Single(Insert(|b| - 1, Last(b)), Init(b), b);
    TurnsThen(script, [Insert(|b| - 1, Last(b))], a, Init(b), b);
  }

  lemma DeleteThen(script: seq<Edit>, a: Text, b: Text)
    requires a != [] && Turns(script, Init(a), b)
    ensures Turns([Delete(|a| - 1)] + script, a, b)
  {
    Single(Delete(|a| - 1), a, Init(a));
    TurnsThen([Delete(|a| - 1)], script, a, Init(a), b);
  }

  lemma KeepLast(script: seq<Edit>, a: Text, b: Text)
    requires a != [] && b != [] && Last(a) == Last(b) && Turns(script, Init(a), Init(b))
    ensures Turns(script, a, b)
  {
    hide Turns;
    TurnsBefore(script, Init(a), Init(b), Last(a));
    assert a == Init(a) + [Last(a)] && b == Init(b) + [Last(a)];
  }

  lemma ThenSubstitute(script: seq<Edit>, a: Text, b: Text)
    requires a != [] && b != [] && Turns(script, Init(a), Init(b))
    ensures Turns(script + [Substitute(|b| - 1, Last(b))], a, b)
  {
    TurnsBefore(script, Init(a), Init(b), Last(a));
    assert a == Init(a) + [Last(a)];
    Single(Substitute(|b| - 1, Last(b)), Init(b) + [Last(a)], b);
    TurnsThen(script, [Substitute(|b| - 1, Last(b))], a, Init(b) + [Last(a)], b);
  }

  lemma {:induction false} ScriptExists(a: Text, b: Text) returns (script: seq<Edit>)
    ensures Turns(script, a, b) && |script| == Distance(a, b)
    decreases |a| + |b|
  {
    if a == [] && b == [] {
      script := [];
    } else if a == [] || (b != [] && Distance(a, b) == Distance(a, Init(b)) + 1) {
      script := ScriptExists(a, Init(b));
      ThenInsert(script, a, b);
      script := script + [Insert(|b| - 1, Last(b))];
    } else if b == [] || Distance(a, b) == Distance(Init(a), b) + 1 {
      script := ScriptExists(Init(a), b);
      DeleteThen(script, a, b);
      script := [Delete(|a| - 1)] + script;
    } else {
      script := ScriptExists(Init(a), Init(b));
      if Last(a) == Last(b) {
        KeepLast(script, a, b);
      } else {
        ThenSubstitute(script, a, b);
        script := script + [Substitute(|b| - 1, Last(b))];
      }
    }
  }

  /** The recurrence computes the edit distance. */
  lemma DistanceIsDistance(a: Text, b: Text)
    ensures IsDistance(a, b, Distance(a, b))
  {
    var script := ScriptExists(a, b);
    forall s | Turns(s, a, b) ensures Distance(a, b) <= |s| {
      NoShorterScript(s, a, b);
    }
  }

  // ------------------------------------------------------- why exits are safe

  /** Every row of the table holds a cell no larger than the final one. */
  lemma {:induction false} RowBound(a: Text, b: Text, i: nat) returns (j: nat)
    requires i <= |a|
    ensures j <= |b| && Distance(a[..i], b[..j]) <= Distance(a, b)
    decreases |a| + |b|
  {
    if i == |a| {
      j := |b|;
      assert a[..i] == a && b[..j] == b;
    } else if b == [] {
      j := 0;
    } else {
      assert Init(a)[..i] == a[..i];
      if Distance(a, b) == Distance(Init(a), b) + 1 {
        j := RowBound(Init(a), b, i);
      } else if Distance(a, b) == Distance(a, Init(b)) + 1 {
        j := RowBound(a, Init(b), i);
        assert Init(b)[..j] == b[..j];
      } else {
        j := RowBound(Init(a), Init(b), i);
        assert Init(b)[..j] == b[..j];
      }
    }
  }

  lemma CellStep(a: Text, b: Text, i: nat, j: nat)
    requires 1 <= i <= |a| && 1 <= j <= |b|
    ensures Distance(a[..i], b[..j]) ==
      Min(Min(Distance(a[..i - 1], b[..j]) + 1, Distance(a[..i], b[..j - 1]) + 1),
          Distance(a[..i - 1], b[..j - 1]) + if a[i - 1] == b[j - 1] then 0 else 1)
  {
    assert Init(a[..i]) == a[..i - 1] && Init(b[..j]) == b[..j - 1];
  }

  // ------------------------------------------------------------ the algorithm

  /** `row` holds the distances of one prefix of `a` to the first `n` prefixes of `b`. */
  ghost predicate IsRow(row: seq<nat>, a: Text, b: Text, i: nat, n: nat)
    requires i <= |a| && n <= |row| <= |b| + 1
  {
    forall j :: 0 <= j < n ==> row[j] == Distance(a[..i], b[..j])
  }

  lemma FirstCell(row: seq<nat>, a: Text, b: Text, i: nat)
    requires i <= |a| && |row| == |b| + 1
    ensures IsRow(row[0 := i], a, b, i, 1)
  {
    assert b[..0] == [];
  }

  lemma NextCell(row: seq<nat>, a: Text, b: Text, i: nat, j: nat)
    requires i <= |a| && j < |row| == |b| + 1 && IsRow(row, a, b, i, j)
    ensures IsRow(row[j := Distance(a[..i], b[..j])], a, b, i, j + 1)
  {
  }

  /** A cell from its three neighbours. */
  lemma CellFromNeighbours(above: seq<nat>, row: seq<nat>, a: Text, b: Text, i: nat, j: nat)
    requires 1 <= i <= |a| && 1 <= j <= |b| && |above| == |row| == |b| + 1
    requires IsRow(above, a, b, i - 1, |b| + 1) && IsRow(row, a, b, i, j)
    ensures Distance(a[..i], b[..j]) ==
      Min(Min(above[j] + 1, row[j - 1] + 1), above[j - 1] + if a[i - 1] == b[j - 1] then 0 else 1)
  {
    CellStep(a, b, i, j);
    hide Distance;
  }

  /** The inner loop: one row of the table from the one above it. */
  method NextRow(a: Text, b: Text, i: nat, prev: array<nat>, curr: array<nat>) returns (rowMin: nat)
    requires 1 <= i <= |a| && prev != curr && prev.Length == curr.Length == |b| + 1
    requires IsRow(prev[..], a, b, i - 1, |b| + 1)
    modifies curr
    ensures IsRow(curr[..], a, b, i, |b| + 1)
    ensures forall j :: 0 <= j <= |b| ==> rowMin <= curr[j]
  {
    hide IsRow, Distance;
    FirstCell(curr[..], a, b, i);
    ghost var before := curr[..];
    curr[0] := i;
    assert curr[..] == before[0 := i];
    rowMin := curr[0];
    for j := 1 to |b| + 1
      invariant prev[..] == old(prev[..])
      invariant IsRow(curr[..], a, b, i, j)
      invariant forall k :: 0 <= k < j ==> rowMin <= curr[k]
    {
      var cost := if a[i - 1] == b[j - 1] then 0 else 1;
      CellFromNeighbours(prev[..], curr[..], a, b, i, j);
      NextCell(curr[..], a, b, i, j);
      var v: nat := Min(Min(prev[j] + 1, curr[j - 1] + 1), prev[j - 1] + cost);
      before := curr[..];
      curr[j] := v;
      assert curr[..] == before[j := v];
      if v < rowMin {
        rowMin := v;
      }
    }
  }

  /** `levenshtein_within`. */
  method LevenshteinWithin(a: Text, b: Text, max: nat) returns (r: Option<nat>)
    ensures r.Some? ==> r.value <= max && IsDistance(a, b, r.value)
    ensures r.None? ==> forall script :: Turns(script, a, b) ==> max < |script|
    ensures r == if Distance(a, b) <= max then Some(Distance(a, b)) else None
  {
    DistanceIsDistance(a, b);
    LengthBound(a, b);
    hide Turns;
    var n, m := |a|, |b|;
    if (if n < m then m - n else n - m) > max {
      return None;
    }
    if n == 0 {
      r := None;
      if m <= max {
        r := Some(m);
      }
      return;
    }
    if m == 0 {
      r := None;
      if n <= max {
        r := Some(n);
      }
      return;
    }
    var prev := new nat[m + 1](j => j);
    var curr := new nat[m + 1](_ => 0);
    for i := 1 to n + 1
      invariant prev.Length == curr.Length == m + 1 && prev != curr
      invariant fresh(prev) && fresh(curr)
      invariant IsRow(prev[..], a, b, i - 1, m + 1)
    {
      var rowMin := NextRow(a, b, i, prev, curr);
      if rowMin > max {
        var j := RowBound(a, b, i);
        assert curr[..][j] == curr[j];
        return None;
      }
      prev, curr := curr, prev;
    }
    assert a[..n] == a && b[..m] == b;
    var d := prev[m];
    assert prev[..][m] == d;
    return if d <= max then Some(d) else None;
  }

  // ------------------------------------------------------------ terms of a field

  /** `[i, j)` is a maximal run of characters of a word. */
  ghost predicate IsTerm(s: Text, isWord: char -> bool, i: nat, j: nat) {
    && i < j <= |s|
    && (forall k :: i <= k < j ==> isWord(s[k]))
    && (i == 0 || !isWord(s[i - 1]))
    && (j == |s| || !isWord(s[j]))
  }

  function RunLength(s: Text, isWord: char -> bool): (n: nat)
    ensures n <= |s| && (forall k :: 0 <= k < n ==> isWord(s[k])) && (n == |s| || !isWord(s[n]))
  {
    if s == [] || !isWord(s[0]) then 0 else 1 + RunLength(s[1..], isWord)
  }

  /** `split_terms`: split at everything that is no part of a word, and drop the empty pieces. */
  function SplitTerms(s: Text, isWord: char -> bool): seq<Text>
    decreases |s|
  {
    if s == [] then []
    else if !isWord(s[0]) then SplitTerms(s[1..], isWord)
    else [s[..RunLength(s, isWord)]] + SplitTerms(s[RunLength(s, isWord)..], isWord)
  }

  ghost predicate TermIs(s: Text, isWord: char -> bool, i: nat, j: nat, t: Text) {
    IsTerm(s, isWord, i, j) && s[i..j] == t
  }

  ghost predicate HasTerm(s: Text, isWord: char -> bool, t: Text) {
    exists i: nat, j: nat :: TermIs(s, isWord, i, j, t)
  }

  /** No run is cut in two before `s[n]`. */
  ghost predicate Between(s: Text, isWord: char -> bool, n: nat) {
    n <= |s| && (n == 0 || n == |s| || !isWord(s[n - 1]) || !isWord(s[n]))
  }

  /** A run behind the cut is a run of the whole text, and the other way round. */
  lemma TermBehind(s: Text, isWord: char -> bool, n: nat, i: nat, j: nat, t: Text)
    requires Between(s, isWord, n)
    ensures TermIs(s[n..], isWord, i, j, t) <==> TermIs(s, isWord, n + i, n + j, t)
  {
  }

  /** Cutting a prefix off between runs loses only the runs inside it. */
  lemma TermsShift(s: Text, isWord: char -> bool, n: nat, t: Text)
    requires Between(s, isWord, n)
    ensures HasTerm(s[n..], isWord, t) ==> HasTerm(s, isWord, t)
    ensures forall i: nat, j: nat :: TermIs(s, isWord, i, j, t) && n <= i ==> HasTerm(s[n..], isWord, t)
  {
    if HasTerm(s[n..], isWord, t) {
      var i: nat, j: nat :| TermIs(s[n..], isWord, i, j, t);
      TermBehind(s, isWord, n, i, j, t);
    }
    forall i: nat, j: nat | TermIs(s, isWord, i, j, t) && n <= i ensures HasTerm(s[n..], isWord, t) {
      TermBehind(s, isWord, n, i - n, j - n, t);
    }
  }

  /** The pieces are exactly the maximal runs of word characters. */
  lemma {:induction false} SplitTermsAreTheRuns(s: Text, isWord: char -> bool, t: Text)
    ensures t in SplitTerms(s, isWord) <==> HasTerm(s, isWord, t)
    decreases |s|
  {
    if s == [] {
    } else if !isWord(s[0]) {
      SplitTermsAreTheRuns(s[1..], isWord, t);
      TermsShift(s, isWord, 1, t);
    } else {
      var n := RunLength(s, isWord);
      SplitTermsAreTheRuns(s[n..], isWord, t);
      TermsShift(s, isWord, n, t);
      assert TermIs(s, isWord, 0, n, s[..n]);
    }
  }

  // -------------------------------------------------------------- typo scores

  const SCORE_TYPO_BASE: nat := 380
  const SCORE_TYPO_PER_EDIT: nat := 30
  const FUZZY_MAX: nat := 300

  function EditBudget(needleLen: nat): nat { if needleLen >= 9 then 2 else 1 }

  /** The score of a distance; saturating, with a floor above every fuzzy score. */
  function ScoreOf(d: nat): nat {
    var penalty := d * SCORE_TYPO_PER_EDIT;
    var raw := if SCORE_TYPO_BASE < penalty then 0 else SCORE_TYPO_BASE - penalty;
    if raw < FUZZY_MAX + 10 then FUZZY_MAX + 10 else raw
  }

  /** `typo_score`: the score of the closest term, if one is within the budget. */
  method TypoScore(token: Text, haystack: Text, needleLen: nat, isWord: char -> bool) returns (score: Option<nat>)
    ensures score.Some? <==>
      exists t <- SplitTerms(haystack, isWord) :: Distance(token, t) <= 1 || (needleLen >= 9 && Distance(token, t) == 2)
    ensures score.Some? ==>
      exists t <- SplitTerms(haystack, isWord) ::
        && (forall u <- SplitTerms(haystack, isWord) :: Distance(token, t) <= Distance(token, u))
        && score.value == (match Distance(token, t) case 0 => 380 case 1 => 350 case _ => 320)
  {
    hide IsDistance, Turns, Distance, SplitTerms;
    var budget := EditBudget(needleLen);
    var terms := SplitTerms(haystack, isWord);
    var best: Option<nat> := None;
    ghost var at := 0;
    for i := 0 to |terms|
      invariant best.None? ==> forall k :: 0 <= k < i ==> budget < Distance(token, terms[k])
      invariant best.Some? ==> best.value <= budget && at < i && Distance(token, terms[at]) == best.value
      invariant best.Some? ==> forall k :: 0 <= k < i ==> best.value <= Distance(token, terms[k])
    {
      var d := LevenshteinWithin(token, terms[i], budget);
      if d.Some? {
        if best.None? || d.value < best.value {
          best, at := d, i;
        }
        if best == Some(0) {
          assert terms[at] in terms;
          return Some(ScoreOf(0));
        }
      }
    }
    if best.None? {
      return None;
    }
    assert terms[at] in terms;
    return Some(ScoreOf(best.value));
  }

  /** Any closer term scores strictly higher, and every typo score lies between
      the fuzzy scores and a substring hit. */
  lemma ScoresRankDistances(d: nat, e: nat)
    requires d < e <= 2
    ensures FUZZY_MAX < ScoreOf(e) < ScoreOf(d) < 400
  {
  }
}
