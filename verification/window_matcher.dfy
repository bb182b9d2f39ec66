/**
 Choosing the entry to type into the foreground window: wildcard matching of
 window titles by two positions and one backtrack point, and the selection of a
 sole candidate. The scan tests literal equality before it tests for `*`, so it
 is tied to the declarative meaning of a pattern by two exact conditions.
 */
module WindowMatcher {
  import opened Texts
  import opened Wrappers

  // ------------------------------------------------------ what a pattern means

  /** `*` stands for any run of characters, `?` for exactly one. */
  ghost predicate Matches(pattern: Text, text: Text)
    decreases |pattern|
  {
    if pattern == [] then text == []
    else if pattern[0] == '*' then exists k :: 0 <= k <= |text| && Matches(pattern[1..], text[k..])
    else text != [] && Fits(pattern[0], text[0]) && Matches(pattern[1..], text[1..])
  }

  predicate Fits(p: char, c: char) { p == '?' || p == c }

  // ------------------------------------------------------------------ the scan

  /** The star passed last, and where the text it absorbs ends at present. */
  datatype Backtrack = Backtrack(star: nat, text: nat)

  ghost predicate IsScan(pattern: Text, text: Text, p: nat, t: nat, backtrack: Option<Backtrack>) {
    && p <= |pattern| && t <= |text|
    && (backtrack.Some? ==>
          && backtrack.value.star < p && backtrack.value.text <= t
          && pattern[backtrack.value.star] == '*')
  }

  /** What the scan returns from the given point on. It ends because the star moves
      right, or else what it absorbs grows, or else the text position advances. */
  function Scan(pattern: Text, text: Text, p: nat, t: nat, backtrack: Option<Backtrack>): bool
    requires IsScan(pattern, text, p, t, backtrack)
    decreases |pattern| - (if backtrack.Some? then backtrack.value.star else -1),
      |text| - (if backtrack.Some? then backtrack.value.text else 0), |text| - t
  {
    if t == |text| then OnlyStars(pattern[p..])
    else if p < |pattern| && Fits(pattern[p], text[t]) then Scan(pattern, text, p + 1, t + 1, backtrack)
    else if p < |pattern| && pattern[p] == '*' then Scan(pattern, text, p + 1, t, Some(Backtrack(p, t)))
    else
      match backtrack
      case Some(b) => Scan(pattern, text, b.star + 1, b.text + 1, Some(Backtrack(b.star, b.text + 1)))
      case None => false
  }

  predicate OnlyStars(pattern: Text) {
    pattern == [] || (pattern[0] == '*' && OnlyStars(pattern[1..]))
  }

  /** `glob_match`. */
  method GlobMatch(pattern: Text, text: Text) returns (matched: bool)
    ensures matched == Scan(pattern, text, 0, 0, None)
    ensures matched ==> Matches(pattern, text)
    ensures '*' !in text || '*' !in pattern ==> matched == Matches(pattern, text)
  {
    var p, t: nat := 0, 0;
    var backtrack: Option<Backtrack> := None;
    ghost var result := Scan(pattern, text, 0, 0, None);
    if result {
      ScanIsSound(pattern, text, 0, 0, None);
    } else if '*' !in text {
      ScanIsComplete(pattern, text, 0, 0, None);
    } else if '*' !in pattern {
      PlainPatternIsComplete(pattern, text, 0);
    }
    hide Matches;
    while t < |text|
      invariant IsScan(pattern, text, p, t, backtrack)
      invariant Scan(pattern, text, p, t, backtrack) == result
      decreases |pattern| - (if backtrack.Some? then backtrack.value.star else -1),
        |text| - (if backtrack.Some? then backtrack.value.text else 0), |text| - t
    {
      if p < |pattern| && (pattern[p] == '?' || pattern[p] == text[t]) {
        p, t := p + 1, t + 1;
      } else if p < |pattern| && pattern[p] == '*' {
        backtrack := Some(Backtrack(p, t));
        p := p + 1;
      } else if backtrack.Some? {
        var Backtrack(star, absorbed) := backtrack.value;
        p, t := star + 1, absorbed + 1;
        backtrack := Some(Backtrack(star, absorbed + 1));
      } else {
        return false;
      }
    }
    while p < |pattern| && pattern[p] == '*'
      invariant p <= |pattern| && OnlyStars(pattern[p..]) == result
    {
      p := p + 1;
    }
    return p == |pattern|;
  }

  // ------------------------------------------------------------------ soundness

  lemma {:induction false} Concat(a: Text, x: Text, b: Text, y: Text)
    requires Matches(a, x) && Matches(b, y)
    ensures Matches(a + b, x + y)
    decreases |a|
  {
    if a == [] {
      assert a + b == b && x + y == y;
    } else {
      assert (a + b)[1..] == a[1..] + b;
      if a[0] == '*' {
        var k :| 0 <= k <= |x| && Matches(a[1..], x[k..]);
        Concat(a[1..], x[k..], b, y);
        assert (x + y)[k..] == x[k..] + y;
      } else {
        Concat(a[1..], x[1..], b, y);
        assert (x + y)[1..] == x[1..] + y;
      }
    }
  }

  lemma StarMatches(x: Text)
    ensures Matches(['*'], x)
  {
    assert x[|x|..] == [] && ['*'][1..] == [] && Matches([], x[|x|..]);
  }

  lemma CharMatches(p: char, c: char)
    requires Fits(p, c)
    ensures Matches([p], [c])
  {
    if p == '*' {
      StarMatches([c]);
    } else {
      assert [p][1..] == [] && [c][1..] == [];
    }
  }

  lemma {:induction false} OnlyStarsMatch(pattern: Text)
    ensures Matches(pattern, []) <==> OnlyStars(pattern)
    decreases |pattern|
  {
    if pattern != [] {
      OnlyStarsMatch(pattern[1..]);
      var nothing: Text := [];
      assert nothing[0..] == nothing;
    }
  }

  /** A pattern that ends in a star absorbs one character more. */
  lemma {:induction false} StarAbsorbs(pattern: Text, x: Text, c: char)
    requires pattern != [] && pattern[|pattern| - 1] == '*' && Matches(pattern, x)
    ensures Matches(pattern, x + [c])
    decreases |pattern|
  {
    if |pattern| == 1 {
      assert pattern == ['*'];
      StarMatches(x + [c]);
    } else if pattern[0] == '*' {
      var k :| 0 <= k <= |x| && Matches(pattern[1..], x[k..]);
      StarAbsorbs(pattern[1..], x[k..], c);
      assert (x + [c])[k..] == x[k..] + [c];
    } else {
      StarAbsorbs(pattern[1..], x[1..], c);
      assert (x + [c])[1..] == x[1..] + [c];
    }
  }

  /** The part of the pattern behind `p` matches the part of the text behind `t`. */
  ghost predicate Done(pattern: Text, text: Text, p: nat, t: nat)
    requires p <= |pattern| && t <= |text|
  {
    Matches(pattern[..p], text[..t])
  }

  /** Whatever the scan accepts, the pattern matches. */
  lemma {:induction false} ScanIsSound(pattern: Text, text: Text, p: nat, t: nat, backtrack: Option<Backtrack>)
    requires IsScan(pattern, text, p, t, backtrack)
    requires Done(pattern, text, p, t)
    requires backtrack.Some? ==> Done(pattern, text, backtrack.value.star + 1, backtrack.value.text)
    requires Scan(pattern, text, p, t, backtrack)
    ensures Matches(pattern, text)
    decreases |pattern| - (if backtrack.Some? then backtrack.value.star else -1),
      |text| - (if backtrack.Some? then backtrack.value.text else 0), |text| - t
  {
    hide Matches;
    if t == |text| {
      OnlyStarsMatch(pattern[p..]);
      Concat(pattern[..p], text[..t], pattern[p..], []);
      assert pattern[..p] + pattern[p..] == pattern && text[..t] + [] == text;
    } else if p < |pattern| && Fits(pattern[p], text[t]) {
      CharMatches(pattern[p], text[t]);
      Concat(pattern[..p], text[..t], [pattern[p]], [text[t]]);
      assert pattern[..p] + [pattern[p]] == pattern[..p + 1] && text[..t] + [text[t]] == text[..t + 1];
      ScanIsSound(pattern, text, p + 1, t + 1, backtrack);
    } else if p < |pattern| && pattern[p] == '*' {
      StarMatches([]);
      Concat(pattern[..p], text[..t], ['*'], []);
      assert pattern[..p] + ['*'] == pattern[..p + 1] && text[..t] + [] == text[..t];
      ScanIsSound(pattern, text, p + 1, t, Some(Backtrack(p, t)));
    } else {
      var Backtrack(star, absorbed) := backtrack.value;
      StarAbsorbs(pattern[..star + 1], text[..absorbed], text[absorbed]);
      assert text[..absorbed] + [text[absorbed]] == text[..absorbed + 1];
      ScanIsSound(pattern, text, star + 1, absorbed + 1, Some(Backtrack(star, absorbed + 1)));
    }
  }

  // --------------------------------------------------------------- completeness

  /** `piece`, which holds no star, fits `x` character by character. */
  ghost predicate FitsAll(piece: Text, x: Text) {
    && |piece| == |x|
    && forall k :: 0 <= k < |piece| ==> piece[k] != '*' && Fits(piece[k], x[k])
  }

  /** A piece without stars takes as many characters as it has. */
  lemma {:induction false} PieceFirst(piece: Text, rest: Text, x: Text)
    requires '*' !in piece && Matches(piece + rest, x)
    ensures |piece| <= |x| && FitsAll(piece, x[..|piece|]) && Matches(rest, x[|piece|..])
    decreases |piece|
  {
    if piece == [] {
      assert piece + rest == rest && x[0..] == x;
    } else {
      assert (piece + rest)[1..] == piece[1..] + rest && (piece + rest)[0] == piece[0];
      assert piece[0] in piece;
      assert forall c :: c in piece[1..] ==> c in piece;
      PieceFirst(piece[1..], rest, x[1..]);
      assert x[1..][|piece| - 1..] == x[|piece|..];
      assert forall k :: 0 < k < |piece| ==> piece[k] == piece[1..][k - 1] && x[1..][..|piece| - 1][k - 1] == x[k];
    }
  }

  /** Where a star matches, it matches with more text in front of it. */
  lemma StarMatchesEarlier(pattern: Text, text: Text, from: nat, later: nat)
    requires pattern != [] && pattern[0] == '*' && from <= later <= |text| && Matches(pattern, text[later..])
    ensures Matches(pattern, text[from..])
  {
    var k :| 0 <= k <= |text[later..]| && Matches(pattern[1..], text[later..][k..]);
    assert text[later..][k..] == text[from..][later - from + k..];
  }

  /** All the text before `t` is accounted for: what is left to find is a match of
      the rest, or one that starts behind the last star. */
  ghost predicate Open(pattern: Text, text: Text, p: nat, t: nat, backtrack: Option<Backtrack>)
    requires IsScan(pattern, text, p, t, backtrack)
  {
    match backtrack
    case None => Matches(pattern[p..], text[t..])
    case Some(b) =>
      && Matches(pattern[b.star..], text[b.text..])
      && FitsAll(pattern[b.star + 1..p], text[b.text..t])
  }

  lemma StarResumes(pattern: Text, text: Text, star: nat, from: nat) returns (k: nat)
    requires star < |pattern| && pattern[star] == '*' && from <= |text| && Matches(pattern[star..], text[from..])
    ensures from <= k <= |text| && Matches(pattern[star + 1..], text[k..])
  {
    var whole, rest := pattern[star..], text[from..];
    assert whole[1..] == pattern[star + 1..];
    var d :| 0 <= d <= |rest| && Matches(whole[1..], rest[d..]);
    k := from + d;
    assert rest[d..] == text[k..];
  }

  lemma PieceTaken(pattern: Text, text: Text, from: nat, p: nat, k: nat)
    requires from <= p <= |pattern| && k <= |text| && '*' !in pattern[from..p]
    requires Matches(pattern[from..], text[k..])
    ensures k + (p - from) <= |text| && Matches(pattern[p..], text[k + (p - from)..])
  {
    var piece := pattern[from..p];
    assert pattern[from..] == piece + pattern[p..];
    PieceFirst(piece, pattern[p..], text[k..]);
    assert text[k..][|piece|..] == text[k + |piece|..];
  }

  /** What a match from the last star on looks like: it resumes at some `k`, and
      the piece up to `p` takes as much text there as it did at the last try. */
  lemma Resume(pattern: Text, text: Text, p: nat, t: nat, b: Backtrack) returns (k: nat)
    requires IsScan(pattern, text, p, t, Some(b)) && Open(pattern, text, p, t, Some(b))
    ensures b.text <= k && k + (t - b.text) <= |text|
    ensures Matches(pattern[b.star + 1..], text[k..]) && Matches(pattern[p..], text[k + (t - b.text)..])
  {
    hide Matches;
    assert |pattern[b.star + 1..p]| == t - b.text && '*' !in pattern[b.star + 1..p];
    k := StarResumes(pattern, text, b.star, b.text);
    PieceTaken(pattern, text, b.star + 1, p, k);
  }

  lemma StarReached(pattern: Text, text: Text, p: nat, t: nat, backtrack: Option<Backtrack>)
    requires IsScan(pattern, text, p, t, backtrack) && Open(pattern, text, p, t, backtrack)
    requires p < |pattern| && pattern[p] == '*'
    ensures Open(pattern, text, p + 1, t, Some(Backtrack(p, t)))
  {
    if backtrack.Some? {
      var k := Resume(pattern, text, p, t, backtrack.value);
      StarMatchesEarlier(pattern[p..], text, t, k + (t - backtrack.value.text));
    }
  }

  lemma Mismatch(pattern: Text, text: Text, p: nat, t: nat, b: Backtrack)
    requires IsScan(pattern, text, p, t, Some(b)) && Open(pattern, text, p, t, Some(b)) && t < |text|
    requires p < |pattern| ==> pattern[p] != '*' && !Fits(pattern[p], text[t])
    ensures Open(pattern, text, b.star + 1, b.text + 1, Some(Backtrack(b.star, b.text + 1)))
  {
    var k := Resume(pattern, text, p, t, b);
    assert k != b.text;
    assert pattern[b.star..][1..] == pattern[b.star + 1..] && text[b.text + 1..][k - (b.text + 1)..] == text[k..];
    assert Matches(pattern[b.star..], text[b.text + 1..]);
  }

  /** A match is found if no `*` in the text can be mistaken for the one in the pattern. */
  lemma {:induction false} ScanIsComplete(pattern: Text, text: Text, p: nat, t: nat, backtrack: Option<Backtrack>)
    requires IsScan(pattern, text, p, t, backtrack) && '*' !in text
    requires !Scan(pattern, text, p, t, backtrack)
    ensures !Open(pattern, text, p, t, backtrack)
    ensures p == t == 0 && backtrack.None? ==> !Matches(pattern, text)
    decreases |pattern| - (if backtrack.Some? then backtrack.value.star else -1),
      |text| - (if backtrack.Some? then backtrack.value.text else 0), |text| - t
  {
    assert pattern[0..] == pattern && text[0..] == text;
    if Open(pattern, text, p, t, backtrack) {
      if t == |text| {
        OnlyStarsMatch(pattern[p..]);
        if backtrack.Some? {
          var k := Resume(pattern, text, p, t, backtrack.value);
        }
      } else if p < |pattern| && Fits(pattern[p], text[t]) {
        assert text[t] in text && pattern[p] != '*';
        CharStep(pattern, text, p, t, backtrack);
        ScanIsComplete(pattern, text, p + 1, t + 1, backtrack);
      } else if p < |pattern| && pattern[p] == '*' {
        StarReached(pattern, text, p, t, backtrack);
        ScanIsComplete(pattern, text, p + 1, t, Some(Backtrack(p, t)));
      } else {
        match backtrack
        case Some(b) =>
          Mismatch(pattern, text, p, t, b);
          ScanIsComplete(pattern, text, b.star + 1, b.text + 1, Some(Backtrack(b.star, b.text + 1)));
        case None =>
      }
    }
  }

  lemma CharStep(pattern: Text, text: Text, p: nat, t: nat, backtrack: Option<Backtrack>)
    requires IsScan(pattern, text, p, t, backtrack) && Open(pattern, text, p, t, backtrack)
    requires p < |pattern| && t < |text| && pattern[p] != '*' && Fits(pattern[p], text[t])
    ensures Open(pattern, text, p + 1, t + 1, backtrack)
  {
    match backtrack
    case None =>
      assert pattern[p..][1..] == pattern[p + 1..] && text[t..][1..] == text[t + 1..];
    case Some(b) =>
      assert pattern[b.star + 1..p + 1] == pattern[b.star + 1..p] + [pattern[p]];
      assert text[b.text..t + 1] == text[b.text..t] + [text[t]];
  }

  /** A pattern without `*` is matched exactly, whatever the text holds. */
  lemma {:induction false} PlainPatternIsComplete(pattern: Text, text: Text, at: nat)
    requires '*' !in pattern && at <= |pattern| && at <= |text|
    ensures Scan(pattern, text, at, at, None) <==> Matches(pattern[at..], text[at..])
    ensures at == 0 ==> (Scan(pattern, text, 0, 0, None) <==> Matches(pattern, text))
    decreases |text| - at
  {
    assert pattern[0..] == pattern && text[0..] == text;
    if at == |text| {
      OnlyStarsMatch(pattern[at..]);
    } else if at < |pattern| {
      assert pattern[at] in pattern;
      assert pattern[at..][1..] == pattern[at + 1..] && text[at..][1..] == text[at + 1..];
      if Fits(pattern[at], text[at]) {
        PlainPatternIsComplete(pattern, text, at + 1);
      }
    }
  }

  // ----------------------------------------------------------- exactly when

  ghost predicate Exact(pattern: Text, text: Text) {
    Scan(pattern, text, 0, 0, None) <==> Matches(pattern, text)
  }

  function Repeat(c: char, n: nat): (s: Text)
    ensures |s| == n && forall k :: 0 <= k < n ==> s[k] == c
  {
    if n == 0 then [] else [c] + Repeat(c, n - 1)
  }

  lemma {:induction false} AnyChars(n: nat, x: Text)
    requires |x| == n
    ensures Matches(Repeat('?', n), x)
    decreases n
  {
    if n > 0 {
      AnyChars(n - 1, x[1..]);
      assert Repeat('?', n)[1..] == Repeat('?', n - 1);
    }
  }

  lemma {:induction false} SelfMatch(x: Text)
    ensures Matches(x, x)
    decreases |x|
  {
    if x != [] {
      SelfMatch(x[1..]);
      if x[0] == '*' {
        assert Matches(x[1..], x[1..]);
      }
    }
  }

  /** As long as the characters fit one by one, the scan takes no star for one. */
  lemma {:induction false} Diagonal(pattern: Text, text: Text, at: nat)
    requires at <= |pattern| && at <= |text|
    requires forall k :: at <= k < |pattern| && k < |text| ==> Fits(pattern[k], text[k])
    ensures Scan(pattern, text, at, at, None) ==> |text| <= |pattern| && OnlyStars(pattern[|text|..])
    decreases |text| - at
  {
    if at < |text| && at < |pattern| {
      Diagonal(pattern, text, at + 1);
    }
  }

  lemma FirstStar(s: Text) returns (i: nat)
    requires '*' in s
    ensures i < |s| && s[i] == '*'
  {
    i :| i < |s| && s[i] == '*';
  }

  /** Fooled by a text with a star: the scan spends the pattern's star on it. */
  lemma StarInTextFools(text: Text) returns (pattern: Text)
    requires '*' in text
    ensures Matches(pattern, text) && !Scan(pattern, text, 0, 0, None)
  {
    hide Matches, Scan;
    var i := FirstStar(text);
    var rest := Repeat('?', |text| - i);
    pattern := text[..i + 1] + rest;
    SelfMatch(text[..i]);
    StarMatches([]);
    Concat(text[..i], text[..i], ['*'], []);
    AnyChars(|text| - i, text[i..]);
    Concat(text[..i] + ['*'], text[..i] + [], rest, text[i..]);
    assert text[..i] + ['*'] + rest == pattern && text[..i] + [] + text[i..] == text;
    assert pattern[|text|..][0] == pattern[|text|] == '?';
    Diagonal(pattern, text, 0);
  }

  /** Every pattern with a star is fooled by some text. */
  lemma StarInPatternFooled(pattern: Text) returns (text: Text)
    requires '*' in pattern
    ensures Matches(pattern, text) && !Scan(pattern, text, 0, 0, None)
  {
    hide Matches, Scan;
    var i := FirstStar(pattern);
    var before, after := pattern[..i], pattern[i + 1..];
    text := pattern + (['*'] + after);
    SelfMatch(before);
    var absorbed := ['*'] + after + ['*'];
    StarMatches(absorbed);
    SelfMatch(after);
    Concat(before, before, ['*'], absorbed);
    Concat(before + ['*'], before + absorbed, after, after);
    assert before + ['*'] + after == pattern && before + absorbed + after == text;
    Diagonal(pattern, text, 0);
  }

  /** A text is matched correctly by every pattern if and only if it holds no `*`. */
  lemma TextExactIffNoStar(text: Text)
    ensures (forall pattern :: Exact(pattern, text)) <==> '*' !in text
  {
    if '*' in text {
      var pattern := StarInTextFools(text);
      assert !Exact(pattern, text);
    } else {
      forall pattern ensures Exact(pattern, text) {
        if Scan(pattern, text, 0, 0, None) {
          ScanIsSound(pattern, text, 0, 0, None);
        } else {
          ScanIsComplete(pattern, text, 0, 0, None);
        }
      }
    }
  }

  /** A pattern matches every text correctly if and only if it holds no `*`. */
  lemma PatternExactIffNoStar(pattern: Text)
    ensures (forall text :: Exact(pattern, text)) <==> '*' !in pattern
  {
    if '*' in pattern {
      var text := StarInPatternFooled(pattern);
      assert !Exact(pattern, text);
    } else {
      forall text ensures Exact(pattern, text) {
        PlainPatternIsComplete(pattern, text, 0);
      }
    }
  }

  /** The shortest case: the pattern that matches everything does not match `*a`. */
  lemma StarMissesStarText()
    ensures Matches("*", "*a") && !Scan("*", "*a", 0, 0, None)
  {
    StarMatches("*a");
  }

  // ------------------------------------------------------------ ranking entries

  const SCORE_EXACT_APP_HOST: nat := 200
  const SCORE_EXPLICIT_ASSOCIATION: nat := 300
  const MIN_AUTOMATIC_SCORE: nat := SCORE_EXACT_APP_HOST

  /** `host` is the host parsed from the entry's address, if it has one. */
  datatype Entry = Entry(id: nat, inRecycleBin: bool, autoTypeEnabled: bool, windows: seq<Text>, host: Option<Text>)

  datatype Foreground = Foreground(appName: Text, title: Text, browser: bool)

  datatype MatchedEntry = MatchedEntry(id: nat, score: nat)

  /** How the platform trims and folds text, and what it takes for blanks. */
  datatype Folding = Folding(trim: Text -> Text, lower: Text -> Text)

  /** `window_pattern_matches`. */
  predicate WindowPatternMatches(pattern: Text, title: Text, f: Folding) {
    var folded := f.lower(f.trim(pattern));
    folded != [] && Scan(folded, f.lower(title), 0, 0, None)
  }

  /** The title is matched as the user meant the pattern: never by a blank one, never where
      the pattern does not match, and always where it does, unless a `*` of the title can
      be mistaken for one of the pattern. */
  lemma PatternMeansItself(pattern: Text, title: Text, f: Folding)
    ensures WindowPatternMatches(pattern, title, f) ==> Meant(pattern, title, f)
    ensures Plain(pattern, title, f) ==> (WindowPatternMatches(pattern, title, f) <==> Meant(pattern, title, f))
  {
    var p, t := f.lower(f.trim(pattern)), f.lower(title);
    if Scan(p, t, 0, 0, None) {
      assert Done(p, t, 0, 0);
      ScanIsSound(p, t, 0, 0, None);
    }
    TextExactIffNoStar(t);
    PatternExactIffNoStar(p);
    assert Plain(pattern, title, f) ==> Exact(p, t);
  }

  /** `*` any run of characters, `?` any one, and all others themselves, up to the case the
      platform folds; blanks around the pattern do not count. */
  ghost predicate Meant(pattern: Text, title: Text, f: Folding) {
    f.lower(f.trim(pattern)) != [] && Matches(f.lower(f.trim(pattern)), f.lower(title))
  }

  predicate Plain(pattern: Text, title: Text, f: Folding) {
    '*' !in f.lower(f.trim(pattern)) || '*' !in f.lower(title)
  }

  /** `score_entry`. */
  function Score(e: Entry, fg: Foreground, f: Folding): nat {
    if !e.autoTypeEnabled then 0
    else if exists w <- e.windows :: WindowPatternMatches(w, fg.title, f) then SCORE_EXPLICIT_ASSOCIATION
    else if fg.browser || e.host.None? then 0
    else if EqIgnoreAsciiCase(f.trim(fg.appName), e.host.value) then SCORE_EXACT_APP_HOST
    else 0
  }

  /** What `rank` collects before it sorts. */
  function Scored(entries: seq<Entry>, fg: Foreground, f: Folding): seq<MatchedEntry> {
    if entries == [] then []
    else
      var e := entries[0];
      var rest := Scored(entries[1..], fg, f);
      if e.inRecycleBin || Score(e, fg, f) == 0 then rest else [MatchedEntry(e.id, Score(e, fg, f))] + rest
  }

  /** `select_automatic`. */
  function SelectAutomatic(matches: seq<MatchedEntry>): Option<MatchedEntry> {
    if |matches| == 1 && matches[0].score >= MIN_AUTOMATIC_SCORE then Some(matches[0]) else None
  }

  /** The user wrote a pattern that matches the title, or, outside browsers, the
      application is named exactly like the entry's host. */
  ghost predicate Qualifies(e: Entry, fg: Foreground, f: Folding) {
    && !e.inRecycleBin && e.autoTypeEnabled
    && (|| (exists w <- e.windows :: WindowPatternMatches(w, fg.title, f))
        || (!fg.browser && e.host.Some? && EqIgnoreAsciiCase(f.trim(fg.appName), e.host.value)))
  }

  ghost predicate Sole(entries: seq<Entry>, i: nat, fg: Foreground, f: Folding) {
    && i < |entries| && Qualifies(entries[i], fg, f)
    && forall j :: 0 <= j < |entries| && j != i ==> !Qualifies(entries[j], fg, f)
  }

  lemma {:induction false} NoneScored(entries: seq<Entry>, fg: Foreground, f: Folding)
    ensures Scored(entries, fg, f) == [] <==> forall e <- entries :: !Qualifies(e, fg, f)
    decreases |entries|
  {
    if entries != [] {
      NoneScored(entries[1..], fg, f);
      assert entries[0] in entries && forall e :: e in entries <==> e == entries[0] || e in entries[1..];
      assert Score(entries[0], fg, f) > 0 && !entries[0].inRecycleBin <==> Qualifies(entries[0], fg, f);
    }
  }

  lemma {:induction false} OneScored(entries: seq<Entry>, fg: Foreground, f: Folding, m: MatchedEntry)
    ensures Scored(entries, fg, f) == [m] <==>
      exists i: nat :: Sole(entries, i, fg, f) && m == MatchedEntry(entries[i].id, Score(entries[i], fg, f))
    decreases |entries|
  {
    if entries == [] {
    } else if Qualifies(entries[0], fg, f) {
      NoneScored(entries[1..], fg, f);
      assert forall j :: 1 <= j < |entries| ==> entries[j] == entries[1..][j - 1];
      assert forall e :: e in entries[1..] ==> exists j :: 1 <= j < |entries| && entries[j] == e;
      assert Scored(entries[1..], fg, f) == [] <==> Sole(entries, 0, fg, f);
      assert forall i: nat :: Sole(entries, i, fg, f) ==> i == 0;
      var x := MatchedEntry(entries[0].id, Score(entries[0], fg, f));
      assert Scored(entries, fg, f) == [x] + Scored(entries[1..], fg, f);
      assert Scored(entries, fg, f)[0] == x && |Scored(entries, fg, f)| == 1 + |Scored(entries[1..], fg, f)|;
      assert [m][0] == m;
    } else {
      OneScored(entries[1..], fg, f, m);
      forall i: nat | i < |entries| - 1 ensures Sole(entries[1..], i, fg, f) <==> Sole(entries, i + 1, fg, f) {
        assert forall j :: 1 <= j < |entries| ==> entries[j] == entries[1..][j - 1];
      }
      if i: nat :| Sole(entries, i, fg, f) && m == MatchedEntry(entries[i].id, Score(entries[i], fg, f)) {
        assert entries[1..][i - 1] == entries[i];
      }
    }
  }

  /** However the candidates are ordered, an entry is typed unasked if and only if
      it is the only live entry that qualifies. */
  lemma AutomaticIffSole(entries: seq<Entry>, ranked: seq<MatchedEntry>, fg: Foreground, f: Folding, m: MatchedEntry)
    requires multiset(ranked) == multiset(Scored(entries, fg, f))
    ensures SelectAutomatic(ranked) == Some(m) <==>
      exists i: nat :: Sole(entries, i, fg, f) && m == MatchedEntry(entries[i].id, Score(entries[i], fg, f))
  {
    var scored := Scored(entries, fg, f);
    assert |ranked| == |multiset(ranked)| == |multiset(scored)| == |scored|;
    if |ranked| == 1 {
      assert ranked == [ranked[0]] && scored == [scored[0]];
      assert ranked[0] in multiset(scored);
      OneScored(entries, fg, f, scored[0]);
    }
    OneScored(entries, fg, f, m);
  }

  // ------------------------------------------------- the choice as the user means it

  ghost predicate Associated(e: Entry, fg: Foreground, f: Folding) {
    exists w <- e.windows :: Meant(w, fg.title, f)
  }

  /** The score an entry deserves: 300 for a pattern of the user's that matches, 200 outside of
      browsers for an application with the name of the entry's host, and else nothing. */
  ghost predicate Deserves(e: Entry, fg: Foreground, f: Folding, score: nat) {
    && !e.inRecycleBin && e.autoTypeEnabled
    && if Associated(e, fg, f) then score == 300
       else score == 200 && !fg.browser && e.host.Some? && EqIgnoreAsciiCase(f.trim(fg.appName), e.host.value)
  }

  ghost predicate OnlyOne(entries: seq<Entry>, i: nat, fg: Foreground, f: Folding, score: nat) {
    && i < |entries| && Deserves(entries[i], fg, f, score)
    && forall j, other: nat :: 0 <= j < |entries| && j != i ==> !Deserves(entries[j], fg, f, other)
  }

  lemma ScoreIsDeserved(e: Entry, fg: Foreground, f: Folding, score: nat)
    requires forall w <- e.windows :: Plain(w, fg.title, f)
    ensures Deserves(e, fg, f, score) <==> Qualifies(e, fg, f) && score == Score(e, fg, f)
  {
    forall w <- e.windows ensures WindowPatternMatches(w, fg.title, f) <==> Meant(w, fg.title, f) {
      PatternMeansItself(w, fg.title, f);
    }
  }

  lemma SoleIsOnly(entries: seq<Entry>, i: nat, fg: Foreground, f: Folding, score: nat)
    requires forall e <- entries, w <- e.windows :: Plain(w, fg.title, f)
    ensures OnlyOne(entries, i, fg, f, score) <==> Sole(entries, i, fg, f) && score == Score(entries[i], fg, f)
  {
    hide Deserves, Qualifies, Plain;
    forall j | 0 <= j < |entries|
      ensures forall other: nat :: Deserves(entries[j], fg, f, other) <==>
                Qualifies(entries[j], fg, f) && other == Score(entries[j], fg, f)
    {
      assert entries[j] in entries;
      forall other: nat ensures Deserves(entries[j], fg, f, other) <==>
                Qualifies(entries[j], fg, f) && other == Score(entries[j], fg, f)
      {
        ScoreIsDeserved(entries[j], fg, f, other);
      }
    }
    assert forall j :: 0 <= j < |entries| && Qualifies(entries[j], fg, f) ==>
      Deserves(entries[j], fg, f, Score(entries[j], fg, f));
  }

  /** Whatever the order, whatever the platform folds: the entry typed unasked is the only live
      one that deserves a score, and it is chosen with that score. */
  lemma ChosenIffOnlyOne(entries: seq<Entry>, ranked: seq<MatchedEntry>, fg: Foreground, f: Folding, m: MatchedEntry)
    requires multiset(ranked) == multiset(Scored(entries, fg, f))
    requires forall e <- entries, w <- e.windows :: Plain(w, fg.title, f)
    ensures SelectAutomatic(ranked) == Some(m) <==>
      exists i: nat :: OnlyOne(entries, i, fg, f, m.score) && m.id == entries[i].id
  {
    AutomaticIffSole(entries, ranked, fg, f, m);
    hide SelectAutomatic, Scored, Plain;
    forall i: nat ensures OnlyOne(entries, i, fg, f, m.score) <==> Sole(entries, i, fg, f) && m.score == Score(entries[i], fg, f) {
      SoleIsOnly(entries, i, fg, f, m.score);
    }
  }

  /** In a browser nothing but a pattern the user wrote has an entry typed unasked;
      and a pattern that matches by the scan matches as the user meant it. */
  lemma BrowserNeedsAssociation(entries: seq<Entry>, fg: Foreground, f: Folding, m: MatchedEntry)
    requires fg.browser && SelectAutomatic(Scored(entries, fg, f)) == Some(m)
    ensures exists e <- entries, w <- e.windows :: e.id == m.id && Matches(f.lower(f.trim(w)), f.lower(fg.title))
  {
    AutomaticIffSole(entries, Scored(entries, fg, f), fg, f, m);
    var i: nat :| Sole(entries, i, fg, f) && m.id == entries[i].id;
    assert entries[i] in entries;
    var w :| w in entries[i].windows && WindowPatternMatches(w, fg.title, f);
    PatternMeansItself(w, fg.title, f);
  }
}
