/**
 What auto-type templates mean to the people who write them: how a placeholder
 may be spelled, and of which pieces a template consists.
 */
module AutoTypeGrammar {
  import opened Texts
  import opened Wrappers
  import opened AutoTypeSequence

  // ------------------------------------------------------------ around the text

  /** The code points with the Unicode property White_Space, as Unicode lists them. */
  const WHITE_SPACE: set<int> := {
    0x9, 0xA, 0xB, 0xC, 0xD, 0x20, 0x85, 0xA0, 0x1680, 0x2000, 0x2001, 0x2002, 0x2003, 0x2004, 0x2005, 0x2006,
    0x2007, 0x2008, 0x2009, 0x200A, 0x2028, 0x2029, 0x202F, 0x205F, 0x3000
  }

  lemma WhitespaceIs(c: char)
    ensures IsWhitespace(c) <==> c as int in WHITE_SPACE
  {
  }

  predicate Blank(s: Text) { forall c <- s :: IsWhitespace(c) }

  predicate Bare(s: Text) { s != [] ==> !IsWhitespace(s[0]) && !IsWhitespace(s[|s| - 1]) }

  ghost predicate Surrounds(before: Text, s: Text, after: Text, body: Text) {
    Blank(before) && Blank(after) && body == before + s + after
  }

  /** `body` is `s` with blanks around it. */
  ghost predicate Wraps(body: Text, s: Text) { exists before, after :: Surrounds(before, s, after, body) }

  lemma {:induction false} TrimStartSkips(s: Text) returns (before: Text)
    ensures Blank(before) && s == before + TrimStart(s)
    ensures TrimStart(s) != [] ==> !IsWhitespace(TrimStart(s)[0])
    decreases |s|
  {
    if s != [] && IsWhitespace(s[0]) {
      before := TrimStartSkips(s[1..]);
      before := [s[0]] + before;
      assert s == [s[0]] + s[1..];
    } else {
      before := [];
    }
  }

  lemma {:induction false} TrimEndSkips(s: Text) returns (after: Text)
    ensures Blank(after) && s == TrimEnd(s) + after
    ensures TrimEnd(s) != [] ==> !IsWhitespace(TrimEnd(s)[|TrimEnd(s)| - 1])
    decreases |s|
  {
    if s != [] && IsWhitespace(s[|s| - 1]) {
      after := TrimEndSkips(s[..|s| - 1]);
      after := after + [s[|s| - 1]];
      assert s == s[..|s| - 1] + [s[|s| - 1]];
    } else {
      after := [];
    }
  }

  lemma {:induction false} TrimStartOf(before: Text, s: Text)
    requires Blank(before) && (s != [] ==> !IsWhitespace(s[0]))
    ensures TrimStart(before + s) == s
    decreases |before|
  {
    if before == [] {
      assert before + s == s;
    } else {
      assert before[0] in before && (before + s)[1..] == before[1..] + s;
      TrimStartOf(before[1..], s);
    }
  }

  lemma {:induction false} TrimEndOf(s: Text, after: Text)
    requires Blank(after) && (s != [] ==> !IsWhitespace(s[|s| - 1]))
    ensures TrimEnd(s + after) == s
    decreases |after|
  {
    if after == [] {
      assert s + after == s;
    } else {
      var n := |after| - 1;
      assert after[n] in after && (s + after)[..|s| + n] == s + after[..n];
      TrimEndOf(s, after[..n]);
    }
  }

  lemma {:induction false} BlankTrims(s: Text)
    requires Blank(s)
    ensures TrimStart(s) == []
    decreases |s|
  {
    if s != [] {
      assert s[0] in s;
      BlankTrims(s[1..]);
    }
  }

  /** Trimming takes off exactly the blanks around. */
  lemma TrimIs(body: Text, s: Text)
    ensures Trim(body) == s <==> Wraps(body, s) && Bare(s)
  {
    if Wraps(body, s) && Bare(s) {
      var before, after :| Surrounds(before, s, after, body);
      if s == [] {
        assert body == before + after;
        BlankTrims(body);
      } else {
        assert body == before + (s + after);
        TrimStartOf(before, s + after);
        TrimEndOf(s, after);
      }
    }
    if Trim(body) == s {
      var before := TrimStartSkips(body);
      var after := TrimEndSkips(TrimStart(body));
      assert Surrounds(before, s, after, body);
      assert s != [] ==> s[0] == TrimStart(body)[0];
    }
  }

  // ------------------------------------------------------------ spellings of words

  /** The word in any mixture of cases, with any blanks around it. */
  ghost predicate Spells(body: Text, word: Text) {
    exists s :: Wraps(body, s) && EqIgnoreAsciiCase(s, word)
  }

  predicate IsWord(word: Text) { word != [] && forall c <- word :: 'A' <= c <= 'Z' }

  lemma UpperIffFolded(s: Text, word: Text)
    requires IsWord(word)
    ensures Upper(s) == word <==> EqIgnoreAsciiCase(s, word)
    ensures EqIgnoreAsciiCase(s, word) ==> s != [] && Bare(s)
  {
    if EqIgnoreAsciiCase(s, word) {
      assert |s| == |AsciiLower(s)| == |word|;
      forall k | 0 <= k < |s| ensures Upper(s)[k] == word[k] && !IsWhitespace(s[k]) {
        assert word[k] in word && AsciiLower(s)[k] == AsciiLower(word)[k];
      }
    }
    if Upper(s) == word {
      forall k | 0 <= k < |s| ensures AsciiLower(s)[k] == AsciiLower(word)[k] {
        assert Upper(s)[k] == word[k] && word[k] in word;
      }
    }
  }

  lemma SpellsIffTrimmed(body: Text, word: Text)
    requires IsWord(word)
    ensures Spells(body, word) <==> Upper(Trim(body)) == word
  {
    UpperIffFolded(Trim(body), word);
    TrimIs(body, Trim(body));
    if Spells(body, word) {
      var s :| Wraps(body, s) && EqIgnoreAsciiCase(s, word);
      UpperIffFolded(s, word);
      TrimIs(body, s);
    }
  }

  // ------------------------------------------------------------ spellings of delays

  /** Decimal digits, with one plus sign before them if one likes. */
  ghost predicate Writes(number: Text, n: nat) {
    var digits := if number != [] && number[0] == '+' then number[1..] else number;
    digits != [] && (forall c <- digits :: IsDigit(c)) && Value(digits) == n
  }

  ghost predicate IsDelay(s: Text, name: Text, gap: Text, number: Text, ms: nat) {
    && s == name + gap + number && EqIgnoreAsciiCase(name, "DELAY") && Blank(gap) && Writes(number, ms)
    && (gap != [] || IsDigit(number[0]))
  }

  /** The word DELAY in any case, and a number that blanks or its first digit set off. */
  ghost predicate SpellsDelay(body: Text, ms: nat) {
    exists s, name, gap, number :: Wraps(body, s) && IsDelay(s, name, gap, number, ms)
  }

  lemma Ink(c: char)
    requires IsDigit(c) || c == '+'
    ensures !IsWhitespace(c)
  {
    assert '+' as int == 43 && '0' as int == 48 && '9' as int == 57;
  }

  lemma NumberReads(number: Text, n: nat)
    requires Writes(number, n) && n < U64
    ensures ParseU64(number) == Some(n) && number != [] && Bare(number)
  {
    var digits := if number[0] == '+' then number[1..] else number;
    assert forall c <- digits :: IsDigit(c);
    assert digits[|digits| - 1] in digits && digits[0] in digits;
    assert number[|number| - 1] == digits[|digits| - 1];
    Ink(number[0]);
    Ink(number[|number| - 1]);
  }

  lemma ReadIsWritten(number: Text)
    requires ParseU64(number).Some?
    ensures Writes(number, ParseU64(number).value) && ParseU64(number).value < U64
  {
  }

  predicate IsDelayLike(upper: Text) { upper == "DELAY" || ("DELAY" <= upper && IsDelayArgument(upper[5..])) }

  lemma UpperOfRest(s: Text)
    requires |s| > 5
    ensures IsDelayArgument(Upper(s)[5..]) <==> IsDelayArgument(s[5..])
    ensures "DELAY" <= Upper(s) <==> EqIgnoreAsciiCase(s[..5], "DELAY")
  {
    var u := Upper(s);
    UpperFront(s, "DELAY");
    assert |"DELAY"| == 5;
    assert u[5..] != [] && s[5..] != [] && u[5..][0] == AsciiUpper(s[5]) && s[5..][0] == s[5];
  }

  lemma UpperFront(s: Text, word: Text)
    requires IsWord(word) && |word| <= |s|
    ensures word <= Upper(s) <==> EqIgnoreAsciiCase(s[..|word|], word)
  {
    UpperIffFolded(s[..|word|], word);
    assert Upper(s)[..|word|] == Upper(s[..|word|]);
  }

  lemma BlankEnd(front: Text, after: Text)
    requires after != [] && Blank(after)
    ensures !Bare(front + after)
  {
    assert after[|after| - 1] in after;
  }

  /** What is spelled like a delay is read as one, as long as its number fits a machine word. */
  lemma DelayIsRead(s: Text, name: Text, gap: Text, number: Text, ms: nat)
    requires IsDelay(s, name, gap, number, ms) && ms < U64
    ensures Bare(s) && |s| > 5 && IsDelayLike(Upper(s)) && Trim(s[5..]) == number && ParseU64(number) == Some(ms)
  {
    NumberReads(number, ms);
    UpperIffFolded(name, "DELAY");
    assert |name| == 5;
    assert s[..5] == name && s[5..] == gap + number && s[|s| - 1] == number[|number| - 1];
    assert Upper(s)[..5] == Upper(name);
    assert gap != [] ==> gap[0] in gap;
    UpperOfRest(s);
    assert s[0] == name[0];
    assert Surrounds(gap, number, [], s[5..]);
    TrimIs(s[5..], number);
  }

  lemma DelayWasSpelled(body: Text) returns (name: Text, gap: Text, number: Text)
    requires IsDelayLike(Upper(Trim(body))) && ParseU64(Trim(Trim(body)[5..])).Some?
    ensures number == Trim(Trim(body)[5..])
    ensures IsDelay(Trim(body), name, gap, number, ParseU64(number).value)
  {
    var s := Trim(body);
    TrimIs(body, s);
    number := Trim(s[5..]);
    ReadIsWritten(number);
    TrimIs(s[5..], number);
    hide Trim, Value, ParseU64, IsWhitespace, IsDigit;
    gap := GapBefore(s, number);
    name := s[..5];
    DelayShape(s, gap, number);
  }

  lemma DelayShape(s: Text, gap: Text, number: Text)
    requires |s| > 5 && IsDelayLike(Upper(s)) && s[5..] == gap + number && number != [] && Bare(number)
    ensures s == s[..5] + gap + number && EqIgnoreAsciiCase(s[..5], "DELAY")
    ensures gap != [] || IsDigit(number[0])
  {
    UpperOfRest(s);
    hide IsWhitespace, IsDigit;
    assert gap == [] ==> s[5..][0] == number[0];
  }

  lemma GapBefore(s: Text, number: Text) returns (gap: Text)
    requires |s| >= 5 && Bare(s) && number != [] && Wraps(s[5..], number)
    ensures Blank(gap) && s[5..] == gap + number && |s| > 5
  {
    var after;
    gap, after :| Surrounds(gap, number, after, s[5..]);
    assert s == (s[..5] + gap + number) + after;
    if after != [] {
      BlankEnd(s[..5] + gap + number, after);
    }
  }

  // ------------------------------------------------------------ what placeholders mean

  /** Whatever stands between braces: it is each token exactly when it spells it, and what
      spells none is refused, a number that is too large by its size. */
  lemma PlaceholderMeans(body: Text, ms: nat)
    ensures ParseToken(body) == Ok(Username) <==> Spells(body, "USERNAME")
    ensures ParseToken(body) == Ok(Password) <==> Spells(body, "PASSWORD")
    ensures ParseToken(body) == Ok(Tab) <==> Spells(body, "TAB")
    ensures ParseToken(body) == Ok(Return) <==> Spells(body, "ENTER") || Spells(body, "RETURN")
    ensures ParseToken(body) == Ok(Delay(ms)) <==> SpellsDelay(body, ms) && ms <= 30_000
    ensures ParseToken(body) == Err(DelayTooLarge(ms, 30_000)) <==>
      SpellsDelay(body, ms) && 30_000 < ms < 0x1_0000_0000_0000_0000
  {
    hide ParseToken, Spells, SpellsDelay;
    WordsMean(body);
    DelaysMean(body, ms);
  }

  lemma WordsMean(body: Text)
    ensures ParseToken(body) == Ok(Username) <==> Spells(body, "USERNAME")
    ensures ParseToken(body) == Ok(Password) <==> Spells(body, "PASSWORD")
    ensures ParseToken(body) == Ok(Tab) <==> Spells(body, "TAB")
    ensures ParseToken(body) == Ok(Return) <==> Spells(body, "ENTER") || Spells(body, "RETURN")
  {
    WordMeans(body, "USERNAME");
    WordMeans(body, "PASSWORD");
    WordMeans(body, "TAB");
    WordMeans(body, "ENTER");
    WordMeans(body, "RETURN");
    hide Trim, Upper, Spells, ParseU64, IsDelayLike;
    TokenByUpper(body);
  }

  lemma DelaysMean(body: Text, ms: nat)
    ensures ParseToken(body) == Ok(Delay(ms)) <==> SpellsDelay(body, ms) && ms <= 30_000
    ensures ParseToken(body) == Err(DelayTooLarge(ms, 30_000)) <==> SpellsDelay(body, ms) && 30_000 < ms < U64
  {
    DelayMeans(body, ms);
    hide Trim, Upper, SpellsDelay, ParseU64, IsDelayLike;
    TokenByUpper(body);
  }

  lemma WordMeans(body: Text, word: Text)
    requires IsWord(word) && (|word| < 5 || word[0] != 'D')
    ensures Spells(body, word) <==> Upper(Trim(body)) == word
    ensures Spells(body, word) ==> !IsDelayLike(Upper(Trim(body)))
  {
    SpellsIffTrimmed(body, word);
    hide Trim, Spells;
  }

  /** The cases of a placeholder by its trimmed text in capitals. */
  lemma TokenByUpper(body: Text)
    ensures
      var upper := Upper(Trim(body));
      ParseToken(body) ==
        if IsDelayLike(upper) then
          var argument := Trim(Trim(body)[5..]);
          match ParseU64(argument)
          case None => Err(InvalidDelay(argument))
          case Some(ms) => if ms > 30_000 then Err(DelayTooLarge(ms, 30_000)) else Ok(Delay(ms))
        else if upper == "USERNAME" then Ok(Username)
        else if upper == "PASSWORD" then Ok(Password)
        else if upper == "TAB" then Ok(Tab)
        else if upper == "ENTER" || upper == "RETURN" then Ok(Return)
        else Err(UnknownToken(Trim(body)))
  {
  }

  lemma DelayMeans(body: Text, ms: nat)
    ensures SpellsDelay(body, ms) && ms < U64 <==>
      IsDelayLike(Upper(Trim(body))) && ParseU64(Trim(Trim(body)[5..])) == Some(ms)
  {
    if SpellsDelay(body, ms) && ms < U64 {
      var s, name, gap, number :| Wraps(body, s) && IsDelay(s, name, gap, number, ms);
      DelayIsRead(s, name, gap, number, ms);
      TrimIs(body, s);
    }
    if IsDelayLike(Upper(Trim(body))) && ParseU64(Trim(Trim(body)[5..])) == Some(ms) {
      TrimIs(body, Trim(body));
      var name, gap, number := DelayWasSpelled(body);
    }
  }

  /** Nothing but its own spelling is ever reported as unknown, blanks taken off. */
  lemma UnknownMeans(body: Text, name: Text)
    ensures ParseToken(body) == Err(UnknownToken(name)) ==> Wraps(body, name) && Bare(name)
    ensures ParseToken(body) == Err(InvalidDelay(name)) ==> ParseU64(name).None? && Bare(name)
  {
    TrimIs(body, name);
    if |Trim(body)| >= 5 {
      TrimIs(Trim(body)[5..], name);
    }
  }

  /** The same text but for case and the blanks around. */
  ghost predicate SameSpelling(a: Text, b: Text) {
    exists s, t :: Wraps(a, s) && Wraps(b, t) && EqIgnoreAsciiCase(s, t)
  }

  lemma FoldedWord(s: Text, t: Text, word: Text)
    requires EqIgnoreAsciiCase(s, t) && EqIgnoreAsciiCase(s, word)
    ensures EqIgnoreAsciiCase(t, word)
  {
  }

  lemma FoldedUnchanged(s: Text, t: Text, k: nat)
    requires EqIgnoreAsciiCase(s, t) && k < |s|
    ensures |t| == |s| && (IsWhitespace(s[k]) || IsDigit(s[k]) || s[k] == '+' ==> t[k] == s[k])
    ensures IsWhitespace(t[k]) ==> t[k] == s[k]
  {
    assert |AsciiLower(s)| == |AsciiLower(t)|;
    assert AsciiLower(s)[k] == AsciiLower(t)[k];
  }

  lemma FoldedBare(s: Text, t: Text)
    requires EqIgnoreAsciiCase(s, t)
    ensures Bare(s) <==> Bare(t)
  {
    assert |AsciiLower(s)| == |AsciiLower(t)|;
    if s != [] {
      FoldedUnchanged(s, t, 0);
      FoldedUnchanged(s, t, |s| - 1);
      FoldedUnchanged(t, s, 0);
      FoldedUnchanged(t, s, |s| - 1);
    }
  }

  lemma FoldedDelay(s: Text, t: Text, name: Text, gap: Text, number: Text, ms: nat)
    requires EqIgnoreAsciiCase(s, t) && IsDelay(s, name, gap, number, ms)
    ensures IsDelay(t, t[..|name|], gap, number, ms)
  {
    var n := |name|;
    assert |AsciiLower(s)| == |AsciiLower(t)|;
    forall k | n <= k < |s| ensures t[k] == s[k] {
      FoldedUnchanged(s, t, k);
      if k < n + |gap| {
        assert s[k] == gap[k - n] && gap[k - n] in gap;
      } else {
        var digits := if number[0] == '+' then number[1..] else number;
        assert s[k] == number[k - n - |gap|];
        assert k > n + |gap| || number[0] != '+' ==> s[k] in digits by {
          if k > n + |gap| || number[0] != '+' {
            assert digits[k - n - |gap| - (|number| - |digits|)] == s[k];
          }
        }
      }
    }
    assert t[n..] == s[n..] == gap + number;
    assert t == t[..n] + gap + number;
    assert AsciiLower(t[..n]) == AsciiLower(t)[..n] == AsciiLower(s)[..n] == AsciiLower(name);
  }

  /** Case and blanks around make no difference to what a placeholder stands for. */
  lemma SpellingDoesNotMatter(a: Text, b: Text)
    requires ParseToken(a).Ok? && SameSpelling(a, b)
    ensures ParseToken(b) == ParseToken(a)
  {
    var token := ParseToken(a).value;
    TokenIsCanonical(a);
    hide ParseToken, Spells, SpellsDelay, SameSpelling;
    if token.Delay? {
      DelaysMean(a, token.ms);
      DelaysAlike(a, b, token.ms);
      DelaysMean(b, token.ms);
    } else {
      WordsMean(a);
      WordsAlike(a, b);
      WordsMean(b);
    }
  }

  lemma WordsAlike(a: Text, b: Text)
    requires SameSpelling(a, b)
    ensures Spells(a, "USERNAME") ==> Spells(b, "USERNAME")
    ensures Spells(a, "PASSWORD") ==> Spells(b, "PASSWORD")
    ensures Spells(a, "TAB") ==> Spells(b, "TAB")
    ensures Spells(a, "ENTER") ==> Spells(b, "ENTER")
    ensures Spells(a, "RETURN") ==> Spells(b, "RETURN")
  {
    hide Spells, SameSpelling;
    if Spells(a, "USERNAME") { SpelledAlike(a, b, "USERNAME"); }
    if Spells(a, "PASSWORD") { SpelledAlike(a, b, "PASSWORD"); }
    if Spells(a, "TAB") { SpelledAlike(a, b, "TAB"); }
    if Spells(a, "ENTER") { SpelledAlike(a, b, "ENTER"); }
    if Spells(a, "RETURN") { SpelledAlike(a, b, "RETURN"); }
  }

  lemma SpelledAlike(a: Text, b: Text, word: Text)
    requires IsWord(word) && Spells(a, word) && SameSpelling(a, b)
    ensures Spells(b, word)
  {
    var s, t :| Wraps(a, s) && Wraps(b, t) && EqIgnoreAsciiCase(s, t);
    var r :| Wraps(a, r) && EqIgnoreAsciiCase(r, word);
    OneCore(a, b, s, t, r, word);
  }

  /** What a blank-free text is folded to, it is folded to in every spelling. */
  lemma OneCore(a: Text, b: Text, s: Text, t: Text, r: Text, word: Text)
    requires Wraps(a, s) && Wraps(b, t) && EqIgnoreAsciiCase(s, t)
    requires IsWord(word) && Wraps(a, r) && EqIgnoreAsciiCase(r, word)
    ensures Spells(b, word)
  {
    UpperIffFolded(r, word);
    TrimIs(a, r);
    var u := Core(a, b, s, t);
    FoldedWord(r, u, word);
  }

  lemma DelaysAlike(a: Text, b: Text, ms: nat)
    requires SpellsDelay(a, ms) && ms < U64 && SameSpelling(a, b)
    ensures SpellsDelay(b, ms)
  {
    var s, t :| Wraps(a, s) && Wraps(b, t) && EqIgnoreAsciiCase(s, t);
    var r, name, gap, number :| Wraps(a, r) && IsDelay(r, name, gap, number, ms);
    DelayIsRead(r, name, gap, number, ms);
    TrimIs(a, r);
    var u := Core(a, b, s, t);
    FoldedDelay(r, u, name, gap, number, ms);
  }

  /** Two spellings are alike in what is left when the blanks are off. */
  lemma Core(a: Text, b: Text, s: Text, t: Text) returns (u: Text)
    requires Wraps(a, s) && Wraps(b, t) && EqIgnoreAsciiCase(s, t)
    ensures Wraps(b, u) && EqIgnoreAsciiCase(Trim(a), u)
  {
    var r := Trim(s);
    TrimIs(s, r);
    var before, after :| Surrounds(before, r, after, s);
    u := CoreOf(s, t, before, r, after);
    hide Trim, EqIgnoreAsciiCase, Surrounds;
    WrapsTwice(b, t, u);
    WrapsTwice(a, s, r);
    TrimIs(a, r);
  }

  lemma CoreOf(s: Text, t: Text, before: Text, r: Text, after: Text) returns (u: Text)
    requires EqIgnoreAsciiCase(s, t) && Surrounds(before, r, after, s)
    ensures Wraps(t, u) && EqIgnoreAsciiCase(r, u)
  {
    var i, j := |before|, |before| + |r|;
    assert |AsciiLower(s)| == |AsciiLower(t)|;
    u := t[i..j];
    assert s[..i] == before && s[i..j] == r && s[j..] == after;
    FoldedBlank(s[..i], t[..i]) by { assert AsciiLower(s[..i]) == AsciiLower(s)[..i] == AsciiLower(t)[..i] == AsciiLower(t[..i]); }
    FoldedBlank(s[j..], t[j..]) by { assert AsciiLower(s[j..]) == AsciiLower(s)[j..] == AsciiLower(t)[j..] == AsciiLower(t[j..]); }
    assert AsciiLower(u) == AsciiLower(t)[i..j] == AsciiLower(s)[i..j] == AsciiLower(r);
    assert Surrounds(t[..i], u, t[j..], t);
  }

  lemma FoldedBlank(s: Text, t: Text)
    requires EqIgnoreAsciiCase(s, t) && Blank(s)
    ensures Blank(t)
  {
    assert |AsciiLower(s)| == |AsciiLower(t)|;
    forall k | 0 <= k < |t| ensures IsWhitespace(t[k]) {
      assert s[k] in s;
      FoldedUnchanged(s, t, k);
    }
  }

  lemma WrapsTwice(a: Text, s: Text, r: Text)
    requires Wraps(a, s) && Wraps(s, r)
    ensures Wraps(a, r)
  {
    var b1, a1 :| Surrounds(b1, s, a1, a);
    var b2, a2 :| Surrounds(b2, r, a2, s);
    assert a == (b1 + b2) + r + (a2 + a1);
    assert Surrounds(b1 + b2, r, a2 + a1, a);
  }

  // ------------------------------------------------------------ what templates consist of

  /** A character that is no brace; a brace written twice, which stands for itself; a
      closing brace alone, which does too; and a placeholder. */
  datatype Piece = Char(c: char) | Twice(c: char) | Lone | Placeholder(body: Text)

  function Spelling(piece: Piece): Text {
    match piece
    case Char(c) => [c]
    case Twice(c) => [c, c]
    case Lone => ['}']
    case Placeholder(body) => ['{'] + body + ['}']
  }

  function Spellings(pieces: seq<Piece>): Text {
    if pieces == [] then [] else Spelling(pieces[0]) + Spellings(pieces[1..])
  }

  /** Read from the left: two closing braces are never two alone, and what follows an
      opening brace is not another one, and goes as far as the first closing brace. */
  predicate Reading(pieces: seq<Piece>, rest: Text) {
    pieces != [] ==> Reading(pieces[1..], rest) && Before(pieces[0], Spellings(pieces[1..]) + rest)
  }

  predicate Before(piece: Piece, next: Text) {
    match piece
    case Char(c) => c != '{' && c != '}'
    case Twice(c) => c == '{' || c == '}'
    case Lone => next == [] || next[0] != '}'
    case Placeholder(body) => '}' !in body && (body == [] || body[0] != '{')
  }

  /** A letter to be typed, or a placeholder's token. */
  datatype Item = Letter(c: char) | Placed(token: Token)

  ghost predicate Denotes(pieces: seq<Piece>, items: seq<Item>) {
    && |pieces| == |items|
    && forall k :: 0 <= k < |pieces| ==> PieceDenotes(pieces[k], items[k])
  }

  ghost predicate PieceDenotes(piece: Piece, item: Item) {
    match piece
    case Char(c) => item == Letter(c)
    case Twice(c) => item == Letter(c)
    case Lone => item == Letter('}')
    case Placeholder(body) => item.Placed? && ParseToken(body) == Ok(item.token)
  }

  function Letters(text: Text): seq<Item> { seq(|text|, k requires 0 <= k < |text| => Letter(text[k])) }

  function Items(tokens: seq<Token>): seq<Item> {
    if tokens == [] then []
    else (if tokens[0].Literal? then Letters(tokens[0].text) else [Placed(tokens[0])]) + Items(tokens[1..])
  }

  /** The tokens of these items, when `literal` has been read before. */
  function Gather(literal: Text, items: seq<Item>): seq<Token>
    decreases |items|
  {
    if items == [] then Flushed(literal)
    else
      match items[0]
      case Letter(c) => Gather(literal + [c], items[1..])
      case Placed(token) => Flushed(literal) + [token] + Gather([], items[1..])
  }

  lemma {:induction false} GatherLetters(literal: Text, text: Text, items: seq<Item>)
    ensures Gather(literal, Letters(text) + items) == Gather(literal + text, items)
    decreases |text|
  {
    if text == [] {
      assert Letters(text) + items == items && literal + text == literal;
    } else {
      assert (Letters(text) + items)[0] == Letter(text[0]);
      assert (Letters(text) + items)[1..] == Letters(text[1..]) + items;
      GatherLetters(literal + [text[0]], text[1..], items);
      assert literal + [text[0]] + text[1..] == literal + text;
    }
  }

  /** Canonical tokens are gathered from their own items. */
  lemma {:induction false} GatherItems(literal: Text, tokens: seq<Token>)
    requires Canonical(tokens) && (literal != [] && tokens != [] ==> !tokens[0].Literal?)
    ensures Gather(literal, Items(tokens)) == Flushed(literal) + tokens
    decreases |tokens|
  {
    if tokens == [] {
      assert Flushed(literal) + tokens == Flushed(literal);
    } else {
      var t, rest := tokens[0], tokens[1..];
      assert tokens == [t] + rest;
      CanonicalRest(tokens);
      hide Canonical, Letters;
      if t.Literal? {
        GatherLetters(literal, t.text, Items(rest));
        assert literal + t.text == t.text;
        GatherItems(t.text, rest);
        assert Flushed(literal) + tokens == [t] + rest;
      } else {
        GatherItems([], rest);
        assert Items(tokens)[0] == Placed(t) && Items(tokens)[1..] == Items(rest);
        assert Flushed([]) + rest == rest;
        assert Flushed(literal) + [t] + rest == Flushed(literal) + tokens;
      }
    }
  }

  lemma CanonicalRest(tokens: seq<Token>)
    requires Canonical(tokens) && tokens != []
    ensures Canonical(tokens[1..])
    ensures tokens[0].Literal? ==> tokens[0].text != [] && (|tokens| > 1 ==> !tokens[1].Literal?)
  {
  }

  lemma {:induction false} ItemsGathered(literal: Text, items: seq<Item>)
    requires forall item <- items :: item.Placed? ==> !item.token.Literal?
    ensures Items(Gather(literal, items)) == Letters(literal) + items
    decreases |items|
  {
    if items == [] {
      assert Items(Flushed(literal)) == Letters(literal) + items;
    } else {
      assert items[0] in items && items == [items[0]] + items[1..];
      match items[0]
      case Letter(c) =>
        ItemsGathered(literal + [c], items[1..]);
        assert Letters(literal + [c]) + items[1..] == Letters(literal) + items;
      case Placed(token) =>
        ItemsGathered([], items[1..]);
        var more := Gather([], items[1..]);
        ItemsConcat(Flushed(literal), [token] + more);
        assert Flushed(literal) + [token] + more == Flushed(literal) + ([token] + more);
        assert ([token] + more)[1..] == more && Letters([]) + items[1..] == items[1..];
        assert Items(Flushed(literal)) == Letters(literal);
    }
  }

  lemma {:induction false} ItemsConcat(a: seq<Token>, b: seq<Token>)
    ensures Items(a + b) == Items(a) + Items(b)
    decreases |a|
  {
    if a == [] {
      assert a + b == b;
    } else {
      assert (a + b)[0] == a[0] && (a + b)[1..] == a[1..] + b;
      ItemsConcat(a[1..], b);
    }
  }

  // ------------------------------------------------------------ parsing is reading

  /** What a reading denotes is what parsing has gathered when it comes to `rest`. */
  ghost function Continued(literal: Text, items: seq<Item>, rest: Text): Result<seq<Token>, ParseError>
    decreases |items|
  {
    if items == [] then ParseFrom(rest, literal)
    else
      match items[0]
      case Letter(c) => Continued(literal + [c], items[1..], rest)
      case Placed(token) => After(Flushed(literal) + [token], Continued([], items[1..], rest))
  }

  lemma OnePiece(piece: Piece, item: Item, rest: Text, literal: Text)
    requires Before(piece, rest) && PieceDenotes(piece, item)
    ensures ParseFrom(Spelling(piece) + rest, literal) ==
      if item.Letter? then ParseFrom(rest, literal + [item.c])
      else After(Flushed(literal) + [item.token], ParseFrom(rest, []))
  {
    hide ParseToken;
    match piece
    case Char(c) => PlainCharacter(c, rest, literal);
    case Twice(c) => DoubledBrace(c, rest, literal);
    case Lone => assert (['}'] + rest)[1..] == rest;
    case Placeholder(body) => PlaceholderParses(body, item.token, rest, literal);
  }

  lemma PlaceholderParses(body: Text, token: Token, rest: Text, literal: Text)
    requires '}' !in body && (body == [] || body[0] != '{')
    ensures ParseToken(body) == Ok(token) ==>
      ParseFrom(['{'] + body + ['}'] + rest, literal) == After(Flushed(literal) + [token], ParseFrom(rest, []))
    ensures ParseToken(body).Err? ==> ParseFrom(['{'] + body + ['}'] + rest, literal) == Err(ParseToken(body).error)
  {
    hide ParseToken, Flushed;
    var s := ['{'] + body + ['}'] + rest;
    assert s[0] == '{' && s[1] == (if body == [] then '}' else body[0]);
    assert s[1..] == body + ['}'] + rest;
    assert s[1..][..|body|] == body;
    BraceFound(s[1..], |body|);
    assert s[1..|body| + 1] == body && s[|body| + 2..] == rest;
    AfterToken(s, literal, []);
    AfterNothing(ParseFrom(s, literal));
    assert [] + Flushed(literal) + [token] == Flushed(literal) + [token];
  }

  lemma {:induction false} ReadingParses(pieces: seq<Piece>, items: seq<Item>, rest: Text, literal: Text)
    requires Reading(pieces, rest) && Denotes(pieces, items)
    ensures ParseFrom(Spellings(pieces) + rest, literal) == Continued(literal, items, rest)
    decreases |pieces|
  {
    if pieces == [] {
      assert Spellings(pieces) + rest == rest;
    } else {
      var more := Spellings(pieces[1..]) + rest;
      assert Spellings(pieces) + rest == Spelling(pieces[0]) + more;
      hide ParseFrom, Spelling;
      OnePiece(pieces[0], items[0], more, literal);
      match items[0]
      case Letter(c) => ReadingParses(pieces[1..], items[1..], rest, literal + [c]);
      case Placed(token) => ReadingParses(pieces[1..], items[1..], rest, []);
    }
  }

  lemma {:induction false} ContinuedAtEnd(literal: Text, items: seq<Item>)
    ensures Continued(literal, items, []) == Ok(Gather(literal, items))
    decreases |items|
  {
    if items != [] {
      match items[0]
      case Letter(c) => ContinuedAtEnd(literal + [c], items[1..]);
      case Placed(token) => ContinuedAtEnd([], items[1..]);
    }
  }

  lemma {:induction false} ContinuedInError(literal: Text, items: seq<Item>, rest: Text, e: ParseError)
    requires forall any :: ParseFrom(rest, any) == Err(e)
    ensures Continued(literal, items, rest) == Err(e)
    decreases |items|
  {
    hide ParseFrom;
    if items != [] {
      match items[0]
      case Letter(c) => ContinuedInError(literal + [c], items[1..], rest, e);
      case Placed(token) => ContinuedInError([], items[1..], rest, e);
    }
  }

  /** Every template is read from the left, to its end or to the brace where it goes wrong. */
  lemma {:induction false} Read(s: Text) returns (pieces: seq<Piece>, items: seq<Item>, rest: Text)
    ensures Reading(pieces, rest) && Denotes(pieces, items) && s == Spellings(pieces) + rest
    ensures rest == [] || Broken(rest)
    decreases |s|
  {
    if s == [] {
      return [], [], [];
    }
    var piece, item, next := NextPiece(s);
    if piece.None? {
      return [], [], s;
    }
    hide Spelling, PieceDenotes, Before, Broken;
    pieces, items, rest := Read(next);
    assert ([piece.value] + pieces)[1..] == pieces;
    assert Spelling(piece.value) + Spellings(pieces) + rest == Spelling(piece.value) + (Spellings(pieces) + rest);
    pieces, items := [piece.value] + pieces, [item] + items;
  }

  lemma NextPiece(s: Text) returns (piece: Option<Piece>, item: Item, next: Text)
    requires s != []
    ensures piece.None? ==> Broken(s)
    ensures piece.Some? ==>
      && s == Spelling(piece.value) + next && |next| < |s|
      && Before(piece.value, next) && PieceDenotes(piece.value, item)
  {
    hide ParseToken, Broken, ToBrace;
    if s[0] == '{' && |s| > 1 && s[1] == '{' {
      return Some(Twice('{')), Letter('{'), s[2..];
    } else if s[0] == '{' {
      var n := ToBrace(s[1..]);
      if n == |s| - 1 || ParseToken(s[1..n + 1]).Err? {
        BrokenAt(s);
        return None, Letter('{'), s;
      }
      assert s[1..][..n] == s[1..n + 1];
      return Some(Placeholder(s[1..n + 1])), Placed(ParseToken(s[1..n + 1]).value), s[n + 2..];
    } else if s[0] == '}' {
      if |s| > 1 && s[1] == '}' {
        return Some(Twice('}')), Letter('}'), s[2..];
      }
      return Some(Lone), Letter('}'), s[1..];
    }
    return Some(Char(s[0])), Letter(s[0]), s[1..];
  }

  /** A brace that is never closed, or one around what is no placeholder. */
  ghost predicate Broken(s: Text) { Unclosed(s) || exists body, more :: Misnamed(s, body, more) }

  predicate Unclosed(s: Text) { s != [] && s[0] == '{' && '}' !in s && (|s| == 1 || s[1] != '{') }

  predicate Misnamed(s: Text, body: Text, more: Text) {
    && s == ['{'] + body + ['}'] + more && '}' !in body && (body == [] || body[0] != '{')
    && ParseToken(body).Err?
  }

  lemma BrokenAt(s: Text)
    requires s != [] && s[0] == '{' && (|s| > 1 ==> s[1] != '{')
    requires var n := ToBrace(s[1..]); n == |s| - 1 || ParseToken(s[1..n + 1]).Err?
    ensures Broken(s)
  {
    hide ParseToken;
    var n := ToBrace(s[1..]);
    if n == |s| - 1 {
      assert s == ['{'] + s[1..][..n];
    } else {
      assert s[1..][..n] == s[1..n + 1];
      assert Misnamed(s, s[1..n + 1], s[n + 2..]);
    }
  }

  lemma UnclosedFails(s: Text, literal: Text)
    requires Unclosed(s)
    ensures ParseFrom(s, literal) == Err(UnbalancedBrace)
  {
    BraceFound(s[1..], |s| - 1);
  }

  ghost predicate Template(template: Text, pieces: seq<Piece>, items: seq<Item>, rest: Text) {
    template == Spellings(pieces) + rest && Reading(pieces, rest) && Denotes(pieces, items)
  }

  /** A template parses to these tokens if and only if it reads as pieces that denote the
      letters and placeholders of the tokens, gathered into as few literals as can be. */
  lemma TemplateMeans(template: Text, tokens: seq<Token>)
    ensures Parsed(template) == Ok(tokens) <==>
      Canonical(tokens) && exists pieces :: Template(template, pieces, Items(tokens), [])
  {
    if Canonical(tokens) && exists pieces :: Template(template, pieces, Items(tokens), []) {
      var pieces :| Template(template, pieces, Items(tokens), []);
      ReadingParses(pieces, Items(tokens), [], []);
      ContinuedAtEnd([], Items(tokens));
      GatherItems([], tokens);
      assert Flushed([]) + tokens == tokens;
    }
    if Parsed(template) == Ok(tokens) {
      ParsedIsCanonical(template, []);
      var pieces, items, rest := Read(template);
      ReadingParses(pieces, items, rest, []);
      if rest != [] {
        BrokenFails(rest);
        var e := ParseFrom(rest, []).error;
        ContinuedInError([], items, rest, e);
      } else {
        ContinuedAtEnd([], items);
        NoLiteralPlaced(pieces, items);
        ItemsGathered([], items);
        assert Letters([]) + items == items;
        assert Template(template, pieces, Items(tokens), []);
      }
    }
  }

  lemma NoLiteralPlaced(pieces: seq<Piece>, items: seq<Item>)
    requires Denotes(pieces, items)
    ensures forall item <- items :: item.Placed? ==> !item.token.Literal?
  {
    hide ParseToken;
    forall k | 0 <= k < |items| && items[k].Placed? ensures !items[k].token.Literal? {
      assert PieceDenotes(pieces[k], items[k]);
      TokenIsCanonical(pieces[k].body);
    }
  }

  lemma BrokenFails(s: Text)
    requires Broken(s)
    ensures ParseFrom(s, []).Err? && forall literal :: ParseFrom(s, literal) == ParseFrom(s, [])
  {
    hide ParseFrom, ParseToken;
    if Unclosed(s) {
      forall literal ensures ParseFrom(s, literal) == Err(UnbalancedBrace) {
        UnclosedFails(s, literal);
      }
    } else {
      var body, more :| Misnamed(s, body, more);
      forall literal ensures ParseFrom(s, literal) == Err(ParseToken(body).error) {
        PlaceholderParses(body, Tab, more, literal);
      }
    }
  }

  ghost predicate GoesWrong(rest: Text, e: ParseError) {
    || (Unclosed(rest) && e == UnbalancedBrace)
    || exists body, more :: Misnamed(rest, body, more) && ParseToken(body) == Err(e)
  }

  /** A template is refused for its first fault and for nothing else: a brace that is never
      closed, or a placeholder that spells no token, behind pieces that are all in order. */
  lemma TemplateRefused(template: Text, e: ParseError)
    ensures Parsed(template) == Err(e) <==>
      exists pieces, items, rest :: Template(template, pieces, items, rest) && GoesWrong(rest, e)
  {
    if pieces, items, rest :| Template(template, pieces, items, rest) && GoesWrong(rest, e) {
      ReadingParses(pieces, items, rest, []);
      WrongFails(rest, e);
      ContinuedInError([], items, rest, e);
    }
    if Parsed(template) == Err(e) {
      var pieces, items, rest := Read(template);
      ReadingParses(pieces, items, rest, []);
      if rest == [] {
        ContinuedAtEnd([], items);
      } else {
        FailsWrong(rest);
        var f := ParseFrom(rest, []).error;
        WrongFails(rest, f);
        ContinuedInError([], items, rest, f);
        assert Template(template, pieces, items, rest);
      }
    }
  }

  lemma WrongFails(rest: Text, e: ParseError)
    requires GoesWrong(rest, e)
    ensures forall literal :: ParseFrom(rest, literal) == Err(e)
  {
    hide ParseFrom, ParseToken;
    forall literal ensures ParseFrom(rest, literal) == Err(e) {
      if Unclosed(rest) && e == UnbalancedBrace {
        UnclosedFails(rest, literal);
      } else {
        var body, more :| Misnamed(rest, body, more) && ParseToken(body) == Err(e);
        PlaceholderParses(body, Tab, more, literal);
      }
    }
  }

  lemma FailsWrong(rest: Text)
    requires Broken(rest)
    ensures ParseFrom(rest, []).Err? && GoesWrong(rest, ParseFrom(rest, []).error)
  {
    hide ParseFrom, ParseToken;
    if Unclosed(rest) {
      UnclosedFails(rest, []);
    } else {
      var body, more :| Misnamed(rest, body, more);
      PlaceholderParses(body, Tab, more, []);
    }
  }
}
