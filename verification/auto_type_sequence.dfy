/**
 Auto-type templates: text mixed with `{TOKEN}` placeholders is parsed into
 tokens, and tokens are rendered into the operations the typer performs.
 */
module AutoTypeSequence {
  import opened Texts
  import opened Wrappers

  datatype Token = Literal(text: Text) | Username | Password | Tab | Return | Delay(ms: nat)

  datatype TypeOp = Type(text: Text) | TypeSecret(text: Text) | PressTab | PressReturn | Sleep(ms: nat)

  datatype ParseError =
    | UnbalancedBrace
    | UnknownToken(name: Text)
    | InvalidDelay(argument: Text)
    | DelayTooLarge(ms: nat, max: nat)

  datatype RenderContext = RenderContext(username: Text, password: Text)

  const MAX_DELAY_MS: nat := 30_000

  // ------------------------------------------------------------- characters

  /** The Unicode property White_Space. */
  predicate IsWhitespace(c: char) {
    var n := c as int;
    || 9 <= n <= 13 || n == 0x20 || n == 0x85 || n == 0xA0 || n == 0x1680 || 0x2000 <= n <= 0x200A
    || n == 0x2028 || n == 0x2029 || n == 0x202F || n == 0x205F || n == 0x3000
  }

  predicate IsDigit(c: char) { '0' <= c <= '9' }

  function AsciiUpper(c: char): char { if 'a' <= c <= 'z' then (c as int - 32) as char else c }

  function Upper(s: Text): (u: Text)
    ensures |u| == |s| && forall k :: 0 <= k < |s| ==> u[k] == AsciiUpper(s[k])
  {
    seq(|s|, k requires 0 <= k < |s| => AsciiUpper(s[k]))
  }

  function TrimStart(s: Text): Text {
    if s != [] && IsWhitespace(s[0]) then TrimStart(s[1..]) else s
  }

  function TrimEnd(s: Text): Text {
    if s != [] && IsWhitespace(s[|s| - 1]) then TrimEnd(s[..|s| - 1]) else s
  }

  function Trim(s: Text): Text { TrimEnd(TrimStart(s)) }

  function Value(digits: Text): nat
    requires forall c <- digits :: IsDigit(c)
  {
    if digits == [] then 0
    else
      var last := digits[|digits| - 1];
      assert last in digits && IsDigit(last) && '0' as int == 48;
      Value(digits[..|digits| - 1]) * 10 + (last as int - '0' as int)
  }

  /** Reads a 64-bit number: digits, with one plus sign before them if one likes. */
  function ParseU64(s: Text): Option<nat> {
    var digits := if s != [] && s[0] == '+' then s[1..] else s;
    if digits == [] || exists c <- digits :: !IsDigit(c) then None
    else if Value(digits) < U64 then Some(Value(digits)) else None
  }

  // ---------------------------------------------------------------- parsing

  predicate IsDelayArgument(rest: Text) {
    rest != [] && (IsWhitespace(rest[0]) || IsDigit(rest[0]))
  }

  /** `parse_token`. */
  function ParseToken(body: Text): Result<Token, ParseError> {
    var trimmed := Trim(body);
    var upper := Upper(trimmed);
    if upper == "DELAY" || ("DELAY" <= upper && IsDelayArgument(upper[5..])) then
      var argument := Trim(trimmed[5..]);
      if argument == [] then Err(InvalidDelay([]))
      else
        match ParseU64(argument)
        case None => Err(InvalidDelay(argument))
        case Some(ms) => if ms > MAX_DELAY_MS then Err(DelayTooLarge(ms, MAX_DELAY_MS)) else Ok(Delay(ms))
    else if upper == "USERNAME" then Ok(Username)
    else if upper == "PASSWORD" then Ok(Password)
    else if upper == "TAB" then Ok(Tab)
    else if upper == "ENTER" || upper == "RETURN" then Ok(Return)
    else Err(UnknownToken(trimmed))
  }

  function Flushed(literal: Text): seq<Token> {
    if literal == [] then [] else [Literal(literal)]
  }

  /** How many characters there are before the first closing brace. */
  function ToBrace(s: Text): (n: nat)
    ensures n <= |s| && '}' !in s[..n] && (n == |s| || s[n] == '}')
  {
    if s == [] || s[0] == '}' then 0 else 1 + ToBrace(s[1..])
  }

  /** The tokens of `s` when `literal` has been read and not yet put out. */
  function ParseFrom(s: Text, literal: Text): Result<seq<Token>, ParseError>
    decreases |s|
  {
    if s == [] then Ok(Flushed(literal))
    else if s[0] == '{' && |s| > 1 && s[1] == '{' then ParseFrom(s[2..], literal + ['{'])
    else if s[0] == '{' then
      var n := ToBrace(s[1..]);
      if n == |s| - 1 then Err(UnbalancedBrace)
      else
        var token :- ParseToken(s[1..n + 1]);
        var rest :- ParseFrom(s[n + 2..], []);
        Ok(Flushed(literal) + [token] + rest)
    else if s[0] == '}' then ParseFrom(s[if |s| > 1 && s[1] == '}' then 2 else 1..], literal + ['}'])
    else ParseFrom(s[1..], literal + [s[0]])
  }

  function Parsed(template: Text): Result<seq<Token>, ParseError> { ParseFrom(template, []) }

  function After(tokens: seq<Token>, rest: Result<seq<Token>, ParseError>): Result<seq<Token>, ParseError> {
    match rest
    case Ok(more) => Ok(tokens + more)
    case Err(e) => Err(e)
  }

  lemma AfterNothing(rest: Result<seq<Token>, ParseError>)
    ensures After([], rest) == rest
  {
    if rest.Ok? {
      assert [] + rest.value == rest.value;
    }
  }

  lemma Reassociate<T>(a: seq<T>, b: seq<T>, c: seq<T>, d: seq<T>)
    ensures a + b + c + d == a + (b + c + d)
  {
  }

  lemma AfterToken(s: Text, literal: Text, tokens: seq<Token>)
    requires s != [] && s[0] == '{' && (|s| > 1 ==> s[1] != '{')
    ensures var n := ToBrace(s[1..]);
            After(tokens, ParseFrom(s, literal)) ==
            if n == |s| - 1 then Err(UnbalancedBrace)
            else
              match ParseToken(s[1..n + 1])
              case Err(e) => Err(e)
              case Ok(token) => After(tokens + Flushed(literal) + [token], ParseFrom(s[n + 2..], []))
  {
    hide ParseToken, ToBrace, Flushed;
    var n := ToBrace(s[1..]);
    if n < |s| - 1 && ParseToken(s[1..n + 1]).Ok? {
      var rest := ParseFrom(s[n + 2..], []);
      if rest.Ok? {
        var token := ParseToken(s[1..n + 1]).value;
        Reassociate(tokens, Flushed(literal), [token], rest.value);
      }
    }
  }

  /** The inner loop: everything up to the closing brace. */
  method ReadBody(template: Text, from: nat) returns (body: Text, closed: bool, at: nat)
    requires from <= |template|
    ensures var n := ToBrace(template[from..]);
            && body == template[from..][..n] && (closed <==> n < |template| - from)
            && at == from + n + (if closed then 1 else 0)
  {
    body, closed, at := [], false, from;
    while at < |template| && !closed
      invariant from <= at <= |template|
      invariant !closed ==> body == template[from..at] && '}' !in body
      invariant closed ==> from < at && template[at - 1] == '}' && body == template[from..at - 1] && '}' !in body
    {
      if template[at] == '}' {
        closed := true;
      } else {
        body := body + [template[at]];
      }
      at := at + 1;
    }
    assert template[from..][..|body|] == body;
    BraceFound(template[from..], |body|);
  }

  /** `parse`. */
  method Parse(template: Text) returns (r: Result<seq<Token>, ParseError>)
    ensures r == Parsed(template)
  {
    hide ParseToken, ToBrace;
    var out: seq<Token> := [];
    var literal: Text := [];
    var at := 0;
    assert template[0..] == template;
    AfterNothing(Parsed(template));
    while at < |template|
      invariant at <= |template|
      invariant After(out, ParseFrom(template[at..], literal)) == Parsed(template)
    {
      ghost var s := template[at..];
      var ch := template[at];
      at := at + 1;
      assert s[0] == ch && s[1..] == template[at..];
      if ch == '{' {
        if at < |template| && template[at] == '{' {
          at := at + 1;
          literal := literal + ['{'];
          assert s[2..] == template[at..];
          continue;
        }
        AfterToken(s, literal, out);
        if literal != [] {
          out := out + [Literal(literal)];
          literal := [];
        }
        var body, closed;
        body, closed, at := ReadBody(template, at);
        if !closed {
          return Err(UnbalancedBrace);
        }
        assert body == s[1..ToBrace(s[1..]) + 1] && s[ToBrace(s[1..]) + 2..] == template[at..];
        var token :- ParseToken(body);
        out := out + [token];
      } else if ch == '}' {
        if at < |template| && template[at] == '}' {
          at := at + 1;
          assert s[2..] == template[at..];
        }
        literal := literal + ['}'];
      } else {
        literal := literal + [ch];
      }
    }
    assert template[at..] == [];
    assert out + [] == out;
    if literal != [] {
      out := out + [Literal(literal)];
    }
    return Ok(out);
  }

  lemma {:induction false} BraceFound(s: Text, n: nat)
    requires n <= |s| && '}' !in s[..n] && (n == |s| || s[n] == '}')
    ensures ToBrace(s) == n
  {
  }

  // ------------------------------------------------- what a template stands for

  predicate Canonical(tokens: seq<Token>) {
    && (forall k :: 0 <= k < |tokens| ==> tokens[k].Literal? ==> tokens[k].text != [])
    && (forall k :: 0 <= k < |tokens| ==> tokens[k].Delay? ==> tokens[k].ms <= MAX_DELAY_MS)
    && (forall k :: 0 < k < |tokens| ==> !(tokens[k - 1].Literal? && tokens[k].Literal?))
  }

  lemma CanonicalAround(literal: Text, token: Token, rest: seq<Token>)
    requires !token.Literal? && (token.Delay? ==> token.ms <= MAX_DELAY_MS) && Canonical(rest)
    ensures Canonical(Flushed(literal) + [token] + rest)
  {
  }

  lemma TokenIsCanonical(body: Text)
    ensures ParseToken(body).Ok? ==>
      var token := ParseToken(body).value;
      !token.Literal? && (token.Delay? ==> token.ms <= MAX_DELAY_MS)
  {
  }

  /** What parses holds no empty and no adjacent literals and no delay above the cap. */
  lemma {:induction false} ParsedIsCanonical(s: Text, literal: Text)
    ensures ParseFrom(s, literal).Ok? ==> Canonical(ParseFrom(s, literal).value)
    decreases |s|
  {
    hide ParseToken, Canonical;
    if s == [] {
      NothingIsCanonical(literal);
    } else if s[0] == '{' && |s| > 1 && s[1] == '{' {
      ParsedIsCanonical(s[2..], literal + ['{']);
    } else if s[0] == '{' {
      var n := ToBrace(s[1..]);
      if n < |s| - 1 && ParseFrom(s, literal).Ok? {
        ParsedIsCanonical(s[n + 2..], []);
        TokenIsCanonical(s[1..n + 1]);
        CanonicalAround(literal, ParseToken(s[1..n + 1]).value, ParseFrom(s[n + 2..], []).value);
      }
    } else if s[0] == '}' {
      ParsedIsCanonical(s[if |s| > 1 && s[1] == '}' then 2 else 1..], literal + ['}']);
    } else {
      ParsedIsCanonical(s[1..], literal + [s[0]]);
    }
  }

  lemma NothingIsCanonical(literal: Text)
    ensures Canonical(Flushed(literal))
  {
  }

  function Digits(n: nat): (s: Text)
    ensures s != [] && forall c <- s :: IsDigit(c)
    ensures Value(s) == n
  {
    var last := ('0' as int + n % 10) as char;
    if n < 10 then [last] else
      var front := Digits(n / 10);
      assert (front + [last])[..|front|] == front;
      front + [last]
  }

  /** Text with its braces doubled. */
  function Escape(text: Text): Text {
    if text == [] then []
    else if text[0] == '{' then "{{" + Escape(text[1..])
    else if text[0] == '}' then "}}" + Escape(text[1..])
    else [text[0]] + Escape(text[1..])
  }

  function Name(t: Token): Text
    requires !t.Literal?
  {
    match t
    case Username => "USERNAME"
    case Password => "PASSWORD"
    case Tab => "TAB"
    case Return => "ENTER"
    case Delay(ms) => "DELAY " + Digits(ms)
  }

  function PrintToken(t: Token): Text {
    if t.Literal? then Escape(t.text) else ['{'] + Name(t) + ['}']
  }

  function Print(tokens: seq<Token>): Text {
    if tokens == [] then [] else PrintToken(tokens[0]) + Print(tokens[1..])
  }

  lemma DoubledBrace(c: char, rest: Text, literal: Text)
    requires c == '{' || c == '}'
    ensures ParseFrom([c, c] + rest, literal) == ParseFrom(rest, literal + [c])
  {
    assert ([c, c] + rest)[2..] == rest;
  }

  lemma PlainCharacter(c: char, rest: Text, literal: Text)
    requires c != '{' && c != '}'
    ensures ParseFrom([c] + rest, literal) == ParseFrom(rest, literal + [c])
  {
    assert ([c] + rest)[1..] == rest;
  }

  lemma {:induction false} EscapedText(text: Text, rest: Text, literal: Text)
    ensures ParseFrom(Escape(text) + rest, literal) == ParseFrom(rest, literal + text)
    decreases |text|
  {
    hide ParseFrom;
    if text == [] {
      assert Escape(text) + rest == rest && literal + text == literal;
    } else {
      var c, more := text[0], Escape(text[1..]) + rest;
      EscapedText(text[1..], rest, literal + [c]);
      assert literal + [c] + text[1..] == literal + text;
      if c == '{' || c == '}' {
        DoubledBrace(c, more, literal);
        assert Escape(text) + rest == [c, c] + more;
      } else {
        PlainCharacter(c, more, literal);
        assert Escape(text) + rest == [c] + more;
      }
    }
  }

  lemma TrimNothing(s: Text)
    requires s != [] && !IsWhitespace(s[0]) && !IsWhitespace(s[|s| - 1])
    ensures Trim(s) == s
  {
  }

  lemma DelayArgument(ms: nat)
    requires ms <= MAX_DELAY_MS
    ensures Trim([' '] + Digits(ms)) == Digits(ms) && ParseU64(Digits(ms)) == Some(ms)
  {
    var digits := Digits(ms);
    assert digits[0] in digits && digits[|digits| - 1] in digits;
    assert ([' '] + digits)[1..] == digits;
    TrimNothing(digits);
  }

  lemma DelayNameParses(ms: nat)
    requires ms <= MAX_DELAY_MS
    ensures ParseToken("DELAY " + Digits(ms)) == Ok(Delay(ms))
  {
    var digits := Digits(ms);
    DelayArgument(ms);
    hide Value, Digits, ParseU64;
    var name := "DELAY " + digits;
    assert digits[|digits| - 1] in digits;
    TrimNothing(name);
    hide TrimStart, TrimEnd;
    assert Upper(name)[..5] == "DELAY";
    assert Upper(name)[5..][0] == ' ';
    assert name[5..] == [' '] + digits;
  }

  lemma UpperStays(s: Text)
    requires forall c <- s :: !('a' <= c <= 'z')
    ensures Upper(s) == s
  {
    assert forall k :: 0 <= k < |s| ==> s[k] in s;
  }

  /** A name in capitals is neither trimmed nor changed. */
  lemma PlainNameParses(name: Text)
    requires name != [] && forall c <- name :: 'A' <= c <= 'Z'
    ensures Trim(name) == name && Upper(name) == name && '}' !in name && name[0] != '{'
  {
    assert name[0] in name && name[|name| - 1] in name;
    TrimNothing(name);
    UpperStays(name);
  }

  lemma NameParses(t: Token)
    requires !t.Literal? && (t.Delay? ==> t.ms <= MAX_DELAY_MS)
    ensures ParseToken(Name(t)) == Ok(t)
    ensures Name(t) != [] && Name(t)[0] != '{' && '}' !in Name(t)
  {
    hide Trim, Upper, Digits, ParseU64;
    match t
    case Delay(ms) =>
      DelayNameParses(ms);
      assert forall c <- Digits(ms) :: IsDigit(c);
    case Username => PlainNameParses("USERNAME");
    case Password => PlainNameParses("PASSWORD");
    case Tab => PlainNameParses("TAB");
    case Return => PlainNameParses("ENTER");
  }

  lemma BracedNameParses(name: Text, t: Token, rest: Text, literal: Text)
    requires ParseToken(name) == Ok(t) && name != [] && name[0] != '{' && '}' !in name
    ensures ParseFrom(['{'] + name + ['}'] + rest, literal) == After(Flushed(literal) + [t], ParseFrom(rest, []))
  {
    hide ParseToken;
    var s := ['{'] + name + ['}'] + rest;
    assert s[0] == '{' && s[1] == name[0];
    assert s[1..] == name + ['}'] + rest;
    assert s[1..][..|name|] == name;
    BraceFound(s[1..], |name|);
    assert s[1..|name| + 1] == name && s[|name| + 2..] == rest;
    AfterToken(s, literal, []);
    AfterNothing(ParseFrom(s, literal));
    assert [] + Flushed(literal) + [t] == Flushed(literal) + [t];
  }

  lemma NothingLeft(literal: Text)
    ensures ParseFrom([], literal) == Ok(Flushed(literal))
  {
  }

  lemma {:induction false} PrintedParses(tokens: seq<Token>, literal: Text)
    requires Canonical(tokens) && (literal != [] && tokens != [] ==> !tokens[0].Literal?)
    ensures ParseFrom(Print(tokens), literal) == Ok(Flushed(literal) + tokens)
    decreases |tokens|
  {
    hide ParseFrom, ParseToken, Escape, Name;
    if tokens == [] {
      NothingLeft(literal);
      assert Flushed(literal) + tokens == Flushed(literal);
    } else {
      var t, rest := tokens[0], tokens[1..];
      assert tokens == [t] + rest;
      if t.Literal? {
        assert literal == [] && literal + t.text == t.text;
        EscapedText(t.text, Print(rest), literal);
        PrintedParses(rest, t.text);
        assert Flushed(literal) + tokens == [t] + rest;
      } else {
        NameParses(t);
        BracedNameParses(Name(t), t, Print(rest), literal);
        PrintedParses(rest, []);
        assert Flushed(literal) + [t] + ([] + rest) == Flushed(literal) + tokens;
      }
    }
  }

  /** Printing and parsing undo each other on canonical token lists, and what
      parses is its own normal form. */
  lemma TemplateRoundTrip(tokens: seq<Token>)
    ensures Canonical(tokens) <==> Parsed(Print(tokens)) == Ok(tokens)
  {
    if Canonical(tokens) {
      PrintedParses(tokens, []);
      assert Flushed([]) + tokens == tokens;
    } else if Parsed(Print(tokens)) == Ok(tokens) {
      ParsedIsCanonical(Print(tokens), []);
    }
  }

  /** A template and the canonical print of what it parses to mean the same. */
  lemma TemplateNormalForm(template: Text)
    requires Parsed(template).Ok?
    ensures Parsed(Print(Parsed(template).value)) == Parsed(template)
  {
    ParsedIsCanonical(template, []);
    TemplateRoundTrip(Parsed(template).value);
  }

  // -------------------------------------------------------------- rendering

  function FlushedOps(text: Text): seq<TypeOp> {
    if text == [] then [] else [Type(text)]
  }

  function SecretOps(password: Text): seq<TypeOp> {
    if password == [] then [] else [TypeSecret(password)]
  }

  /** The text a token adds to what is pending. */
  function TextOf(t: Token, ctx: RenderContext): Text
    requires t.Literal? || t.Username?
  {
    if t.Literal? then t.text else ctx.username
  }

  /** The operations of a token that is no text. */
  function OpsOf(t: Token, ctx: RenderContext): seq<TypeOp>
    requires !t.Literal? && !t.Username?
  {
    match t
    case Password => SecretOps(ctx.password)
    case Tab => [PressTab]
    case Return => [PressReturn]
    case Delay(ms) => [Sleep(ms)]
  }

  /** The operations of `tokens` when `pending` has been collected and not yet put out. */
  function RenderFrom(tokens: seq<Token>, pending: Text, ctx: RenderContext): seq<TypeOp>
    decreases |tokens|
  {
    if tokens == [] then FlushedOps(pending)
    else if tokens[0].Literal? || tokens[0].Username? then
      RenderFrom(tokens[1..], pending + TextOf(tokens[0], ctx), ctx)
    else FlushedOps(pending) + OpsOf(tokens[0], ctx) + RenderFrom(tokens[1..], [], ctx)
  }

  method Flush(pending: Text, ops: seq<TypeOp>) returns (flushed: seq<TypeOp>)
    ensures flushed == ops + FlushedOps(pending)
  {
    flushed := ops;
    if pending != [] {
      flushed := flushed + [Type(pending)];
    }
  }

  /** `render`. */
  method Render(tokens: seq<Token>, ctx: RenderContext) returns (ops: seq<TypeOp>)
    ensures ops == RenderFrom(tokens, [], ctx)
  {
    ops := [];
    var pending: Text := [];
    assert tokens[0..] == tokens;
    for i := 0 to |tokens|
      invariant ops + RenderFrom(tokens[i..], pending, ctx) == RenderFrom(tokens, [], ctx)
    {
      var token := tokens[i];
      assert tokens[i..][0] == token && tokens[i..][1..] == tokens[i + 1..];
      match token
      case Literal(s) => pending := pending + s;
      case Username => pending := pending + ctx.username;
      case _ =>
        Reassociate(ops, FlushedOps(pending), OpsOf(token, ctx), RenderFrom(tokens[i + 1..], [], ctx));
        ops := Flush(pending, ops);
        pending := [];
        ops := ops + OpsOf(token, ctx);
    }
    assert tokens[|tokens|..] == [];
    ops := Flush(pending, ops);
  }

  // ------------------------------------------------ what rendering conserves

  /** What reaches the keyboard, one stroke after the other. */
  datatype Stroke = Key(c: char, secret: bool) | TabKey | ReturnKey | Wait(ms: nat)

  function Keys(text: Text, secret: bool): seq<Stroke> {
    seq(|text|, k requires 0 <= k < |text| => Key(text[k], secret))
  }

  function Strokes(op: TypeOp): seq<Stroke> {
    match op
    case Type(text) => Keys(text, false)
    case TypeSecret(text) => Keys(text, true)
    case PressTab => [TabKey]
    case PressReturn => [ReturnKey]
    case Sleep(ms) => [Wait(ms)]
  }

  function Flatten(ops: seq<TypeOp>): seq<Stroke> {
    if ops == [] then [] else Strokes(ops[0]) + Flatten(ops[1..])
  }

  function TokenStrokes(t: Token, ctx: RenderContext): seq<Stroke> {
    match t
    case Literal(s) => Keys(s, false)
    case Username => Keys(ctx.username, false)
    case Password => Keys(ctx.password, true)
    case Tab => [TabKey]
    case Return => [ReturnKey]
    case Delay(ms) => [Wait(ms)]
  }

  function Expand(tokens: seq<Token>, ctx: RenderContext): seq<Stroke> {
    if tokens == [] then [] else TokenStrokes(tokens[0], ctx) + Expand(tokens[1..], ctx)
  }

  lemma {:induction false} FlattenConcat(a: seq<TypeOp>, b: seq<TypeOp>)
    ensures Flatten(a + b) == Flatten(a) + Flatten(b)
    decreases |a|
  {
    if a == [] {
      assert a + b == b;
    } else {
      FlattenConcat(a[1..], b);
      assert (a + b)[1..] == a[1..] + b;
      hide Strokes;
    }
  }

  lemma FlattenShort(op: TypeOp)
    ensures Flatten([op]) == Strokes(op)
  {
  }

  lemma FlattenFlushed(pending: Text, ops: seq<TypeOp>, rest: seq<TypeOp>)
    ensures Flatten(FlushedOps(pending) + ops + rest) == Keys(pending, false) + Flatten(ops) + Flatten(rest)
  {
    FlattenConcat(FlushedOps(pending) + ops, rest);
    FlattenConcat(FlushedOps(pending), ops);
    FlattenShort(Type(pending));
  }

  lemma KeysConcat(a: Text, b: Text, rest: seq<Stroke>)
    ensures Keys(a + b, false) + rest == Keys(a, false) + (Keys(b, false) + rest)
  {
  }

  lemma OpsOfStrokes(t: Token, ctx: RenderContext)
    requires !t.Literal? && !t.Username?
    ensures Flatten(OpsOf(t, ctx)) == TokenStrokes(t, ctx)
  {
  }

  lemma {:induction false} RenderFlattens(tokens: seq<Token>, pending: Text, ctx: RenderContext)
    ensures Flatten(RenderFrom(tokens, pending, ctx)) == Keys(pending, false) + Expand(tokens, ctx)
    decreases |tokens|
  {
    if tokens == [] {
      FlattenShort(Type(pending));
    } else {
      var t, rest := tokens[0], tokens[1..];
      if t.Literal? || t.Username? {
        RenderFlattens(rest, pending + TextOf(t, ctx), ctx);
        KeysConcat(pending, TextOf(t, ctx), Expand(rest, ctx));
        hide Flatten, Keys;
      } else {
        RenderFlattens(rest, [], ctx);
        OpsOfStrokes(t, ctx);
        FlattenFlushed(pending, OpsOf(t, ctx), RenderFrom(rest, [], ctx));
        assert Keys([], false) + Expand(rest, ctx) == Expand(rest, ctx);
        hide Flatten, Keys, OpsOf, TokenStrokes;
      }
    }
  }

  /** The strokes of the operations are the strokes of the tokens, in order, and
      exactly the password's characters are typed as secret. */
  lemma RenderConserves(tokens: seq<Token>, ctx: RenderContext)
    ensures Flatten(RenderFrom(tokens, [], ctx)) == Expand(tokens, ctx)
  {
    RenderFlattens(tokens, [], ctx);
  }

  ghost predicate NoEmptyText(ops: seq<TypeOp>) {
    forall op <- ops :: op.Type? || op.TypeSecret? ==> op.text != []
  }

  ghost predicate NoAdjacentText(ops: seq<TypeOp>) {
    forall k :: 0 < k < |ops| ==> !(ops[k - 1].Type? && ops[k].Type?)
  }

  lemma {:induction false} NoEmptyOperation(tokens: seq<Token>, pending: Text, ctx: RenderContext)
    ensures NoEmptyText(RenderFrom(tokens, pending, ctx))
    decreases |tokens|
  {
    if tokens != [] {
      NoEmptyOperation(tokens[1..], [], ctx);
      if tokens[0].Literal? || tokens[0].Username? {
        NoEmptyOperation(tokens[1..], pending + TextOf(tokens[0], ctx), ctx);
      }
    }
  }

  lemma {:induction false} TextIsBatched(tokens: seq<Token>, pending: Text, ctx: RenderContext)
    requires ctx.password != []
    ensures NoAdjacentText(RenderFrom(tokens, pending, ctx))
    decreases |tokens|
  {
    if tokens != [] {
      TextIsBatched(tokens[1..], [], ctx);
      if tokens[0].Literal? || tokens[0].Username? {
        TextIsBatched(tokens[1..], pending + TextOf(tokens[0], ctx), ctx);
      }
    }
  }

  // When two text operations stand side by side: an empty password leaves nothing
  // in its place, and still parts the text around it.

  predicate Shows(t: Token, ctx: RenderContext) {
    (t.Literal? || t.Username?) && TextOf(t, ctx) != []
  }

  /** Without a password the token puts out no operation of its own. */
  predicate Silent(t: Token) { t.Literal? || t.Username? || t.Password? }

  /** Text that shows is the first thing put out. */
  predicate Ahead(tokens: seq<Token>, ctx: RenderContext) {
    tokens != [] && (Shows(tokens[0], ctx) || (Silent(tokens[0]) && Ahead(tokens[1..], ctx)))
  }

  /** And a password comes before it. */
  predicate PastPassword(tokens: seq<Token>, ctx: RenderContext) {
    tokens != [] && Silent(tokens[0]) &&
    (PastPassword(tokens[1..], ctx) || (tokens[0].Password? && Ahead(tokens[1..], ctx)))
  }

  predicate Parted(tokens: seq<Token>, ctx: RenderContext) {
    tokens != [] && (Parted(tokens[1..], ctx) || (Shows(tokens[0], ctx) && PastPassword(tokens[1..], ctx)))
  }

  /** Texts at `i` and `j` show, with a password at `k` between them and no key or pause. */
  ghost predicate PartedAt(tokens: seq<Token>, ctx: RenderContext, i: nat, k: nat, j: nat) {
    && i < k < j < |tokens| && Shows(tokens[i], ctx) && tokens[k].Password? && Shows(tokens[j], ctx)
    && forall m :: i < m < j ==> Silent(tokens[m])
  }

  lemma {:induction false} TextFirst(tokens: seq<Token>, pending: Text, ctx: RenderContext)
    requires ctx.password == []
    ensures var ops := RenderFrom(tokens, pending, ctx);
            ops != [] && ops[0].Type? <==> pending != [] || Ahead(tokens, ctx)
    decreases |tokens|
  {
    if tokens != [] {
      TextFirst(tokens[1..], [], ctx);
      if tokens[0].Literal? || tokens[0].Username? {
        TextFirst(tokens[1..], pending + TextOf(tokens[0], ctx), ctx);
      }
    }
  }

  lemma {:induction false} PastIsAhead(tokens: seq<Token>, ctx: RenderContext)
    ensures PastPassword(tokens, ctx) ==> Ahead(tokens, ctx)
    decreases |tokens|
  {
    if tokens != [] {
      PastIsAhead(tokens[1..], ctx);
    }
  }

  lemma {:induction false} PartedIsAdjacent(tokens: seq<Token>, pending: Text, ctx: RenderContext)
    requires ctx.password == []
    ensures NoAdjacentText(RenderFrom(tokens, pending, ctx)) <==>
      !Parted(tokens, ctx) && !(pending != [] && PastPassword(tokens, ctx))
    decreases |tokens|
  {
    if tokens != [] {
      var t, rest := tokens[0], tokens[1..];
      if t.Literal? || t.Username? {
        PartedIsAdjacent(rest, pending + TextOf(t, ctx), ctx);
      } else {
        PartedIsAdjacent(rest, [], ctx);
        PastIsAhead(rest, ctx);
        TextFirst(rest, [], ctx);
        OneTextFirst(pending, OpsOf(t, ctx), RenderFrom(rest, [], ctx));
      }
    }
  }

  lemma OneBefore(op: TypeOp, rest: seq<TypeOp>)
    ensures NoAdjacentText([op] + rest) <==> NoAdjacentText(rest) && !(op.Type? && rest != [] && rest[0].Type?)
  {
    var all := [op] + rest;
    if NoAdjacentText(all) {
      forall k | 0 < k < |rest| ensures !(rest[k - 1].Type? && rest[k].Type?) {
        assert all[k] == rest[k - 1] && all[k + 1] == rest[k];
      }
      assert rest != [] ==> all[0] == op && all[1] == rest[0];
    }
    if NoAdjacentText(rest) && !(op.Type? && rest != [] && rest[0].Type?) {
      forall k | 0 < k < |all| ensures !(all[k - 1].Type? && all[k].Type?) {
        assert all[k] == rest[k - 1] && (k > 1 ==> all[k - 1] == rest[k - 2]);
      }
    }
  }

  lemma OneTextFirst(pending: Text, ops: seq<TypeOp>, rest: seq<TypeOp>)
    requires |ops| <= 1 && forall op <- ops :: !op.Type?
    ensures NoAdjacentText(FlushedOps(pending) + ops + rest) <==>
      NoAdjacentText(rest) && !(pending != [] && ops == [] && rest != [] && rest[0].Type?)
  {
    var behind := ops + rest;
    assert FlushedOps(pending) + ops + rest == FlushedOps(pending) + behind;
    if ops == [] {
      assert behind == rest;
    } else {
      assert ops[0] in ops && behind == [ops[0]] + rest;
      OneBefore(ops[0], rest);
    }
    if pending == [] {
      assert FlushedOps(pending) + behind == behind;
    } else {
      OneBefore(Type(pending), behind);
    }
  }

  lemma {:induction false} AheadAt(tokens: seq<Token>, ctx: RenderContext)
    ensures Ahead(tokens, ctx) <==>
      exists j: nat :: j < |tokens| && Shows(tokens[j], ctx) && forall m :: 0 <= m < j ==> Silent(tokens[m])
    decreases |tokens|
  {
    if tokens != [] && !Shows(tokens[0], ctx) && Silent(tokens[0]) {
      var rest := tokens[1..];
      AheadAt(rest, ctx);
      if j: nat :| j < |rest| && Shows(rest[j], ctx) && forall m :: 0 <= m < j ==> Silent(rest[m]) {
        assert Shows(tokens[j + 1], ctx) && forall m :: 0 < m < j + 1 ==> tokens[m] == rest[m - 1];
      }
      if j: nat :| j < |tokens| && Shows(tokens[j], ctx) && forall m :: 0 <= m < j ==> Silent(tokens[m]) {
        assert Shows(rest[j - 1], ctx) && forall m :: 0 <= m < j - 1 ==> rest[m] == tokens[m + 1];
      }
    }
  }

  ghost predicate PastAt(tokens: seq<Token>, ctx: RenderContext, k: nat, j: nat) {
    && k < j < |tokens| && tokens[k].Password? && Shows(tokens[j], ctx)
    && forall m :: 0 <= m < j ==> Silent(tokens[m])
  }

  lemma {:induction false} PastPasswordAt(tokens: seq<Token>, ctx: RenderContext)
    ensures PastPassword(tokens, ctx) <==> exists k: nat, j: nat :: PastAt(tokens, ctx, k, j)
    decreases |tokens|
  {
    if tokens != [] {
      var rest := tokens[1..];
      PastPasswordAt(rest, ctx);
      AheadAt(rest, ctx);
      if PastPassword(tokens, ctx) {
        if PastPassword(rest, ctx) {
          var k: nat, j: nat :| PastAt(rest, ctx, k, j);
          assert PastAt(tokens, ctx, k + 1, j + 1);
        } else {
          var j: nat :| j < |rest| && Shows(rest[j], ctx) && forall m :: 0 <= m < j ==> Silent(rest[m]);
          assert PastAt(tokens, ctx, 0, j + 1);
        }
      }
      if k: nat, j: nat :| PastAt(tokens, ctx, k, j) {
        assert forall m :: 0 <= m < j - 1 ==> rest[m] == tokens[m + 1];
        assert Shows(rest[j - 1], ctx);
        assert k > 0 ==> PastAt(rest, ctx, k - 1, j - 1);
      }
    }
  }

  lemma {:induction false} PartedIffAt(tokens: seq<Token>, ctx: RenderContext)
    ensures Parted(tokens, ctx) <==> exists i: nat, k: nat, j: nat :: PartedAt(tokens, ctx, i, k, j)
    decreases |tokens|
  {
    if tokens != [] {
      var rest := tokens[1..];
      PartedIffAt(rest, ctx);
      PastPasswordAt(rest, ctx);
      if Parted(rest, ctx) {
        var i: nat, k: nat, j: nat :| PartedAt(rest, ctx, i, k, j);
        assert PartedAt(tokens, ctx, i + 1, k + 1, j + 1);
      }
      if Shows(tokens[0], ctx) && PastPassword(rest, ctx) {
        var k: nat, j: nat :| PastAt(rest, ctx, k, j);
        assert PartedAt(tokens, ctx, 0, k + 1, j + 1);
      }
      if i: nat, k: nat, j: nat :| PartedAt(tokens, ctx, i, k, j) {
        if i == 0 {
          assert PastAt(rest, ctx, k - 1, j - 1);
        } else {
          assert PartedAt(rest, ctx, i - 1, k - 1, j - 1);
        }
      }
    }
  }

  /** Text operations of this list stand side by side if and only if the password is
      empty and one of its placeholders has text that shows on either side, with no
      key and no pause in between. */
  lemma AdjacentIffParted(tokens: seq<Token>, ctx: RenderContext)
    ensures NoAdjacentText(RenderFrom(tokens, [], ctx)) <==>
      ctx.password != [] || !exists i: nat, k: nat, j: nat :: PartedAt(tokens, ctx, i, k, j)
  {
    if ctx.password != [] {
      TextIsBatched(tokens, [], ctx);
    } else {
      PartedIsAdjacent(tokens, [], ctx);
      PartedIffAt(tokens, ctx);
    }
  }

  ghost predicate Batched(tokens: seq<Token>, ctx: RenderContext) {
    NoAdjacentText(RenderFrom(tokens, [], ctx))
  }

  /** So it never happens, whatever the template, if and only if there is a password. */
  lemma BatchedIffPassword(ctx: RenderContext)
    ensures (forall tokens :: Batched(tokens, ctx)) <==> ctx.password != []
  {
    var tokens := [Literal("a"), Password, Literal("b")];
    AdjacentIffParted(tokens, ctx);
    assert PartedAt(tokens, ctx, 0, 1, 2);
    assert Batched(tokens, ctx) <==> ctx.password != [];
    forall tokens | ctx.password != [] ensures Batched(tokens, ctx) {
      AdjacentIffParted(tokens, ctx);
    }
  }

  /** `ops` with another password put into every secret operation. */
  function WithPassword(ops: seq<TypeOp>, password: Text): (r: seq<TypeOp>)
    ensures |r| == |ops|
    ensures forall k :: 0 <= k < |ops| ==> r[k] == if ops[k].TypeSecret? then TypeSecret(password) else ops[k]
  {
    seq(|ops|, k requires 0 <= k < |ops| => if ops[k].TypeSecret? then TypeSecret(password) else ops[k])
  }

  function Secrets(ops: seq<TypeOp>): nat {
    if ops == [] then 0 else (if ops[0].TypeSecret? then 1 else 0) + Secrets(ops[1..])
  }

  function Passwords(tokens: seq<Token>): nat {
    if tokens == [] then 0 else (if tokens[0].Password? then 1 else 0) + Passwords(tokens[1..])
  }

  lemma WithPasswordConcat(pending: Text, ops: seq<TypeOp>, rest: seq<TypeOp>, password: Text)
    ensures WithPassword(FlushedOps(pending) + ops + rest, password) ==
            FlushedOps(pending) + WithPassword(ops, password) + WithPassword(rest, password)
  {
  }

  /** Between two nonempty passwords nothing differs but the payload of the secret operations. */
  lemma {:induction false} PasswordIsIsolated(tokens: seq<Token>, pending: Text, username: Text, p: Text, q: Text)
    requires p != [] && q != []
    ensures RenderFrom(tokens, pending, RenderContext(username, q)) ==
            WithPassword(RenderFrom(tokens, pending, RenderContext(username, p)), q)
    decreases |tokens|
  {
    if tokens != [] {
      var t, rest := tokens[0], tokens[1..];
      var was, now := RenderContext(username, p), RenderContext(username, q);
      if t.Literal? || t.Username? {
        PasswordIsIsolated(rest, pending + TextOf(t, was), username, p, q);
      } else {
        PasswordIsIsolated(rest, [], username, p, q);
        WithPasswordConcat(pending, OpsOf(t, was), RenderFrom(rest, [], was), q);
        assert OpsOf(t, now) == WithPassword(OpsOf(t, was), q);
        hide OpsOf, WithPassword;
      }
    }
  }

  lemma {:induction false} SecretsConcat(a: seq<TypeOp>, b: seq<TypeOp>)
    ensures Secrets(a + b) == Secrets(a) + Secrets(b)
    decreases |a|
  {
    if a == [] {
      assert a + b == b;
    } else {
      SecretsConcat(a[1..], b);
      assert (a + b)[1..] == a[1..] + b;
    }
  }

  /** One secret operation for each password placeholder, and each carries the password. */
  lemma {:induction false} OneSecretPerPassword(tokens: seq<Token>, pending: Text, ctx: RenderContext)
    requires ctx.password != []
    ensures Secrets(RenderFrom(tokens, pending, ctx)) == Passwords(tokens)
    ensures forall op <- RenderFrom(tokens, pending, ctx) :: op.TypeSecret? ==> op.text == ctx.password
    decreases |tokens|
  {
    if tokens != [] {
      var rest := tokens[1..];
      var ops := RenderFrom(rest, [], ctx);
      OneSecretPerPassword(rest, [], ctx);
      if tokens[0].Literal? || tokens[0].Username? {
        OneSecretPerPassword(rest, pending + TextOf(tokens[0], ctx), ctx);
      } else {
        SecretsConcat(FlushedOps(pending) + OpsOf(tokens[0], ctx), ops);
        SecretsConcat(FlushedOps(pending), OpsOf(tokens[0], ctx));
      }
    }
  }
}
