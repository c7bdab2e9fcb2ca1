/**
 The tokenizer of the expression language: a functional specification of the token a text starts with,
 the loop that walks the source with an index, and the proof that writing tokens out and tokenizing
 again gives the same tokens exactly when white space separates those tokens that would merge.
 */
module Tokenizer {
  import opened Outcome
  import opened ExprSyntax

  predicate IsSpace(c: char) {
    c == ' ' || c == '\t' || c == '\n' || c == '\r'
  }

  predicate IsDigit(c: char) {
    '0' <= c <= '9'
  }

  predicate IsIdentStart(c: char) {
    'a' <= c <= 'z' || 'A' <= c <= 'Z' || c == '_'
  }

  predicate IsIdentPart(c: char) {
    IsIdentStart(c) || IsDigit(c)
  }

  /** The length of the longest prefix of digits. */
  function DigitRun(s: string): (n: nat)
    ensures n <= |s|
  {
    if s != "" && IsDigit(s[0]) then 1 + DigitRun(s[1..]) else 0
  }

  function IdentRun(s: string): (n: nat)
    ensures n <= |s|
  {
    if s != "" && IsIdentPart(s[0]) then 1 + IdentRun(s[1..]) else 0
  }

  /** Digits, then optionally a point and more digits (possibly none). */
  function NumberRun(s: string): (n: nat)
    ensures n <= |s|
  {
    var d := DigitRun(s);
    if d < |s| && s[d] == '.' then d + 1 + DigitRun(s[d + 1..]) else d
  }

  function Escaped(c: char): char {
    match c
    case 'n' => '\n'
    case 't' => '\t'
    case 'r' => '\r'
    case _ => c
  }

  /** The body of a literal whose first characters, `out`, are already read. */
  function After(out: string, n: nat, r: Option<(string, nat)>): Option<(string, nat)> {
    match r
    case None => None
    case Some((content, k)) => Some((out + content, n + k))
  }

  /** The content of a string literal whose opening quote was just read, and the characters it takes. */
  function StringBody(s: string, quote: char): (r: Option<(string, nat)>)
    ensures r.Some? ==> 1 <= r.value.1 <= |s|
  {
    if s == "" then None
    else if s[0] == quote then Some(("", 1))
    else if s[0] == '\\' then
      if |s| == 1 then None
      else After([Escaped(s[1])], 2, StringBody(s[2..], quote))
    else After([s[0]], 1, StringBody(s[1..], quote))
  }

  const OPERATOR_COUNT := 22

  /** The operators in the order in which the tokenizer tries them: the two-character ones first. */
  function Operator(k: nat): Punct
    requires k < OPERATOR_COUNT
  {
    match k
    case 0 => EqEq
    case 1 => NotEq
    case 2 => LtEq
    case 3 => GtEq
    case 4 => AndAnd
    case 5 => OrOr
    case 6 => LessThan
    case 7 => GreaterThan
    case 8 => Plus
    case 9 => Minus
    case 10 => Star
    case 11 => Slash
    case 12 => Percent
    case 13 => LParen
    case 14 => RParen
    case 15 => LBrack
    case 16 => RBrack
    case 17 => Comma
    case 18 => Dot
    case 19 => Question
    case 20 => Colon
    case _ => Bang
  }

  /** The first operator, from the k-th on, that the text starts with. */
  function FirstOperator(k: nat, s: string): (r: Option<Punct>)
    requires k <= OPERATOR_COUNT
    ensures r.Some? ==> PunctText(r.value) <= s
    decreases OPERATOR_COUNT - k
  {
    if k == OPERATOR_COUNT then None
    else if PunctText(Operator(k)) <= s then Some(Operator(k))
    else FirstOperator(k + 1, s)
  }

  /** The token a text starts with, and its length, once leading white space is gone. */
  function LexOne(s: string): (r: Result<(Token, nat), SyntaxError>)
    requires s != "" && !IsSpace(s[0])
    ensures r.Ok? ==> 1 <= r.value.1 <= |s| && !r.value.0.TEof?
  {
    if IsDigit(s[0]) then
      Ok((TNum(s[..NumberRun(s)]), NumberRun(s)))
    else if s[0] == '"' || s[0] == '\'' then
      match StringBody(s[1..], s[0])
      case None => Err(UnterminatedString)
      case Some((content, n)) => Ok((TStr(content), n + 1))
    else if IsIdentStart(s[0]) then
      Ok((TIdent(s[..IdentRun(s)]), IdentRun(s)))
    else
      match FirstOperator(0, s)
      case None => Err(UnexpectedCharacter(s[0]))
      case Some(p) => Ok((TOp(p), |PunctText(p)|))
  }

  /** Puts tokens in front of the tokens of the rest of the source. */
  function Prepend(tokens: seq<Token>, r: Result<seq<Token>, SyntaxError>): Result<seq<Token>, SyntaxError> {
    match r
    case Ok(rest) => Ok(tokens + rest)
    case Err(e) => Err(e)
  }

  /** A token list that ends at its one end-of-input token. */
  predicate Terminated(ts: seq<Token>) {
    ts != [] && ts[|ts| - 1] == TEof && forall i | 0 <= i < |ts| - 1 :: ts[i] != TEof
  }

  /** The token list of a source: at most one token a character, and the end of input. */
  function Lex(s: string): (r: Result<seq<Token>, SyntaxError>)
    ensures r.Ok? ==> Terminated(r.value) && |r.value| <= |s| + 1
  {
    if s == "" then Ok([TEof])
    else if IsSpace(s[0]) then Lex(s[1..])
    else match LexOne(s)
      case Err(e) => Err(e)
      case Ok((token, n)) => Prepend([token], Lex(s[n..]))
  }

  lemma {:induction false} PrependNothing(r: Result<seq<Token>, SyntaxError>)
    ensures Prepend([], r) == r
  {
    if r.Ok? {
      assert [] + r.value == r.value;
    }
  }

  lemma {:induction false} PrependPrepend(ts: seq<Token>, token: Token, r: Result<seq<Token>, SyntaxError>)
    ensures Prepend(ts, Prepend([token], r)) == Prepend(ts + [token], r)
  {
    if r.Ok? {
      assert ts + ([token] + r.value) == ts + [token] + r.value;
    }
  }

  // ----- the loop over the source

  method SkipDigits(src: string, start: nat) returns (i: nat)
    requires start <= |src|
    ensures i == start + DigitRun(src[start..])
  {
    i := start;
    while i < |src| && '0' <= src[i] <= '9'
      invariant start <= i <= |src|
      invariant DigitRun(src[start..]) == i - start + DigitRun(src[i..])
    {
      assert src[i..][1..] == src[i + 1..];
      i := i + 1;
    }
  }

  lemma {:induction false} AfterAfter(out: string, n: nat, c: char, k: nat, r: Option<(string, nat)>)
    ensures After(out, n, After([c], k, r)) == After(out + [c], n + k, r)
  {
    if r.Some? {
      assert out + ([c] + r.value.0) == out + [c] + r.value.0;
    }
  }

  method ReadString(src: string, start: nat) returns (out: string, i: nat)
    requires start < |src|
    ensures var body := StringBody(src[start + 1..], src[start]);
            if body.None? then |src| <= i
            else i == start + body.value.1 && i < |src| && out == body.value.0
  {
    var quote := src[start];
    i, out := start + 1, "";
    ghost var whole := StringBody(src[i..], quote);
    assert whole.Some? ==> "" + whole.value.0 == whole.value.0;
    while i < |src| && src[i] != quote
      invariant start < i
      invariant if i <= |src| then whole == After(out, i - start - 1, StringBody(src[i..], quote)) else whole == None
    {
      ghost var n, before, s := i - start - 1, out, src[i..];
      if src[i] == '\\' {
        if i + 1 < |src| {
          out := out + [Escaped(src[i + 1])];
          assert s[2..] == src[i + 2..];
          AfterAfter(before, n, Escaped(s[1]), 2, StringBody(s[2..], quote));
        }
        i := i + 2;
      } else {
        out := out + [src[i]];
        i := i + 1;
        assert s[1..] == src[i..];
        AfterAfter(before, n, s[0], 1, StringBody(s[1..], quote));
      }
    }
    assert i < |src| ==> out + "" == out;
  }

  method FindOperator(src: string, i: nat) returns (op: Option<Punct>)
    requires i <= |src|
    ensures op == FirstOperator(0, src[i..])
  {
    var k := 0;
    while k < OPERATOR_COUNT
      invariant 0 <= k <= OPERATOR_COUNT
      invariant FirstOperator(0, src[i..]) == FirstOperator(k, src[i..])
    {
      if PunctText(Operator(k)) <= src[i..] {
        return Some(Operator(k));
      }
      k := k + 1;
    }
    return None;
  }

  method ReadNumber(src: string, start: nat) returns (i: nat)
    requires start < |src| && IsDigit(src[start])
    ensures start < i <= |src| && LexOne(src[start..]) == Ok((TNum(src[start..i]), i - start))
  {
    ghost var s := src[start..];
    i := SkipDigits(src, start);
    if i < |src| && src[i] == '.' {
      assert s[i - start + 1..] == src[i + 1..];
      i := SkipDigits(src, i + 1);
    }
    assert src[start..i] == s[..NumberRun(s)];
  }

  method ReadIdentifier(src: string, start: nat) returns (i: nat)
    requires start < |src| && IsIdentStart(src[start])
    ensures start < i <= |src| && LexOne(src[start..]) == Ok((TIdent(src[start..i]), i - start))
  {
    ghost var s := src[start..];
    i := start;
    while i < |src| && IsIdentPart(src[i])
      invariant start <= i <= |src|
      invariant IdentRun(s) == i - start + IdentRun(src[i..])
    {
      assert src[i..][1..] == src[i + 1..];
      i := i + 1;
    }
    assert src[start..i] == s[..IdentRun(s)];
  }

  /** One round of the loop over a token that takes the characters from `start` to `end`. */
  lemma {:induction false} LexStep(src: string, start: nat, end: nat, tokens: seq<Token>, token: Token)
    requires start < end <= |src| && !IsSpace(src[start])
    requires LexOne(src[start..]) == Ok((token, end - start))
    ensures Prepend(tokens, Lex(src[start..])) == Prepend(tokens + [token], Lex(src[end..]))
  {
    hide LexOne, Terminated;
    assert src[start..][end - start..] == src[end..];
    assert Lex(src[start..]) == Prepend([token], Lex(src[end..]));
    hide Lex, Prepend;
    PrependPrepend(tokens, token, Lex(src[end..]));
  }

  method ReadToken(src: string, start: nat) returns (r: Result<(Token, nat), SyntaxError>)
    requires start < |src| && !IsSpace(src[start])
    ensures r.Err? ==> LexOne(src[start..]) == Err(r.error)
    ensures r.Ok? ==> start < r.value.1 <= |src| && LexOne(src[start..]) == Ok((r.value.0, r.value.1 - start))
  {
    var c := src[start];
    if IsDigit(c) {
      var i := ReadNumber(src, start);
      return Ok((TNum(src[start..i]), i));
    }
    if c == '"' || c == '\'' {
      var out, i := ReadString(src, start);
      assert src[start..][1..] == src[start + 1..];
      if i >= |src| {
        return Err(UnterminatedString);
      }
      return Ok((TStr(out), i + 1));
    }
    if IsIdentStart(c) {
      var i := ReadIdentifier(src, start);
      return Ok((TIdent(src[start..i]), i));
    }
    var op := FindOperator(src, start);
    if op.None? {
      return Err(UnexpectedCharacter(c));
    }
    return Ok((TOp(op.value), start + |PunctText(op.value)|));
  }

  method Tokenize(src: string) returns (r: Result<seq<Token>, SyntaxError>)
    ensures r == Lex(src)
  {
    hide LexOne, Terminated;
    var tokens: seq<Token> := [];
    var i := 0;
    assert src[0..] == src;
    PrependNothing(Lex(src));
    while i < |src|
      invariant 0 <= i <= |src|
      invariant Lex(src) == Prepend(tokens, Lex(src[i..]))
      decreases |src| - i
    {
      if IsSpace(src[i]) {
        assert src[i..][1..] == src[i + 1..];
        i := i + 1;
        continue;
      }
      var next := ReadToken(src, i);
      if next.Err? {
        return Err(next.error);
      }
      var (token, end) := next.value;
      LexStep(src, i, end, tokens, token);
      tokens, i := tokens + [token], end;
    }
    r := Ok(tokens + [TEof]);
  }

  // ----- writing tokens out

  /** The text of a string literal with the given content, in double quotes. */
  function EscapeAll(s: string): string {
    if s == "" then ""
    else (if s[0] == '"' || s[0] == '\\' then ['\\', s[0]] else [s[0]]) + EscapeAll(s[1..])
  }

  function TokenText(t: Token): string {
    match t
    case TNum(text) => text
    case TStr(content) => "\"" + EscapeAll(content) + "\""
    case TIdent(name) => name
    case TOp(p) => PunctText(p)
    case TEof => ""
  }

  predicate IsNumberText(s: string) {
    s != "" && IsDigit(s[0]) && NumberRun(s) == |s|
  }

  predicate IsIdentText(s: string) {
    s != "" && IsIdentStart(s[0]) && IdentRun(s) == |s|
  }

  /** The tokens that have a text. */
  predicate Writable(t: Token) {
    match t
    case TNum(text) => IsNumberText(text)
    case TStr(_) => true
    case TIdent(name) => IsIdentText(name)
    case TOp(_) => true
    case TEof => false
  }

  predicate IsGap(s: string) {
    forall i | 0 <= i < |s| :: IsSpace(s[i])
  }

  /** The operators that become another one before an equals sign. */
  predicate GrowsWithEquals(p: Punct) {
    p.LessThan? || p.GreaterThan? || p.Bang?
  }

  /** Would this character, right after the text of a token, be read as part of it? */
  predicate Extends(t: Token, c: char) {
    match t
    case TNum(text) => IsDigit(c) || (c == '.' && '.' !in text)
    case TIdent(_) => IsIdentPart(c)
    case TOp(p) => c == '=' && GrowsWithEquals(p)
    case _ => false
  }

  predicate Stops(t: Token, rest: string) {
    rest == "" || !Extends(t, rest[0])
  }

  /** Two tokens whose texts merge when they touch. */
  predicate NeedsGap(a: Token, b: Token) {
    || (a.TIdent? && (b.TIdent? || b.TNum?))
    || (a.TNum? && (b.TNum? || (b == TOp(Dot) && '.' !in a.text)))
    || (a.TOp? && GrowsWithEquals(a.punct) && b == TOp(EqEq))
  }

  predicate Gaps(gaps: seq<string>, tokens: seq<Token>) {
    |gaps| == |tokens| + 1 && forall i | 0 <= i < |gaps| :: IsGap(gaps[i])
  }

  /** White space between two tokens wherever they would merge, and anywhere else that it is wanted. */
  predicate Spacing(gaps: seq<string>, tokens: seq<Token>) {
    Gaps(gaps, tokens) && forall i | 0 < i < |tokens| && NeedsGap(tokens[i - 1], tokens[i]) :: gaps[i] != ""
  }

  function Layout(tokens: seq<Token>, gaps: seq<string>): string
    requires |gaps| == |tokens| + 1
  {
    if tokens == [] then gaps[0]
    else gaps[0] + TokenText(tokens[0]) + Layout(tokens[1..], gaps[1..])
  }

  lemma {:induction false} DigitRunAppend(s: string, t: string)
    requires t == "" || !IsDigit(t[0])
    ensures DigitRun(s + t) == DigitRun(s)
  {
    if s == "" {
      assert s + t == t;
    } else {
      assert (s + t)[1..] == s[1..] + t;
      DigitRunAppend(s[1..], t);
    }
  }

  lemma {:induction false} IdentRunAppend(s: string, t: string)
    requires t == "" || !IsIdentPart(t[0])
    ensures IdentRun(s + t) == IdentRun(s)
  {
    if s == "" {
      assert s + t == t;
    } else {
      assert (s + t)[1..] == s[1..] + t;
      IdentRunAppend(s[1..], t);
    }
  }

  lemma {:induction false} DigitRunIsDigits(s: string)
    ensures forall i | 0 <= i < DigitRun(s) :: IsDigit(s[i])
    ensures DigitRun(s) < |s| ==> !IsDigit(s[DigitRun(s)])
  {
    if s != "" && IsDigit(s[0]) {
      DigitRunIsDigits(s[1..]);
      assert forall i | 0 < i < DigitRun(s) :: s[i] == s[1..][i - 1];
    }
  }

  lemma {:induction false} DigitRunThrough(s: string, t: string)
    requires DigitRun(s) == |s|
    ensures DigitRun(s + t) == |s| + DigitRun(t)
  {
    if s == "" {
      assert s + t == t;
    } else {
      assert (s + t)[1..] == s[1..] + t;
      DigitRunThrough(s[1..], t);
    }
  }

  lemma {:induction false} IdentRunThrough(s: string, t: string)
    requires IdentRun(s) == |s|
    ensures IdentRun(s + t) == |s| + IdentRun(t)
  {
    if s == "" {
      assert s + t == t;
    } else {
      assert (s + t)[1..] == s[1..] + t;
      IdentRunThrough(s[1..], t);
    }
  }

  /** A number text has a point exactly where its first run of digits ends early. */
  lemma {:induction false} PointOf(text: string)
    requires IsNumberText(text)
    ensures var d := DigitRun(text);
            ('.' in text <==> d < |text|)
            && (d < |text| ==> text[d] == '.' && DigitRun(text[d + 1..]) == |text| - d - 1)
  {
    DigitRunIsDigits(text);
  }

  /** A number text is read whole, and no further, exactly before what does not extend it. */
  lemma {:induction false} NumberRunAppend(s: string, t: string)
    requires IsNumberText(s)
    ensures NumberRun(s + t) == |s| <==> Stops(TNum(s), t)
  {
    PointOf(s);
    var d := DigitRun(s);
    if d < |s| {
      DigitRunAppend(s[..d], s[d..] + t);
      assert s[..d] + (s[d..] + t) == s + t;
      DigitRunPrefix(s, d);
      assert (s + t)[d + 1..] == s[d + 1..] + t;
      DigitRunThrough(s[d + 1..], t);
    } else {
      DigitRunThrough(s, t);
    }
  }

  lemma {:induction false} DigitRunPrefix(s: string, d: nat)
    requires d == DigitRun(s)
    ensures DigitRun(s[..d]) == d
  {
    if d > 0 {
      assert s[..d][1..] == s[1..][..d - 1];
      DigitRunPrefix(s[1..], d - 1);
    }
  }

  lemma {:induction false} StringBodyOfEscaped(content: string, t: string)
    ensures StringBody(EscapeAll(content) + "\"" + t, '"') == Some((content, |EscapeAll(content)| + 1))
  {
    var s := EscapeAll(content) + "\"" + t;
    if content == "" {
      assert s[0] == '"';
    } else {
      StringBodyOfEscaped(content[1..], t);
      var tail := EscapeAll(content[1..]) + "\"" + t;
      if content[0] == '"' || content[0] == '\\' {
        assert s == ['\\', content[0]] + tail;
        assert s[2..] == tail;
        assert Escaped(content[0]) == content[0];
      } else {
        assert s == [content[0]] + tail;
        assert s[1..] == tail;
      }
      assert [content[0]] + content[1..] == content;
    }
  }

  /** The position of an operator in the list. */
  function Rank(p: Punct): nat {
    match p
    case EqEq => 0
    case NotEq => 1
    case LtEq => 2
    case GtEq => 3
    case AndAnd => 4
    case OrOr => 5
    case LessThan => 6
    case GreaterThan => 7
    case Plus => 8
    case Minus => 9
    case Star => 10
    case Slash => 11
    case Percent => 12
    case LParen => 13
    case RParen => 14
    case LBrack => 15
    case RBrack => 16
    case Comma => 17
    case Dot => 18
    case Question => 19
    case Colon => 20
    case Bang => 21
  }

  lemma {:induction false} RankOfOperator(k: nat)
    requires k < OPERATOR_COUNT
    ensures Rank(Operator(k)) == k
  {
  }

  lemma {:induction false} OperatorAtRank(p: Punct)
    ensures Rank(p) < OPERATOR_COUNT && Operator(Rank(p)) == p
  {
  }

  lemma {:induction false} PunctTextLength(p: Punct)
    ensures |PunctText(p)| == if Rank(p) < 6 then 2 else 1
    ensures |PunctText(p)| == 2 ==> !IsSpace(PunctText(p)[1])
  {
  }

  lemma {:induction false} PunctTextsDiffer(p: Punct, q: Punct)
    requires p != q && |PunctText(p)| == |PunctText(q)|
    ensures PunctText(p)[0] != PunctText(q)[0] || PunctText(p)[|PunctText(p)| - 1] != PunctText(q)[|PunctText(q)| - 1]
  {
  }

  /** A text that goes on after the operator `p` with nothing that makes it another operator. */
  predicate StartsWithOperator(p: Punct, s: string) {
    PunctText(p) <= s && Stops(TOp(p), s[|PunctText(p)|..])
  }

  lemma {:induction false} LongerOperator(q: Punct, p: Punct)
    requires |PunctText(q)| == 2 && |PunctText(p)| == 1 && PunctText(q)[0] == PunctText(p)[0]
    ensures GrowsWithEquals(p) && PunctText(q)[1] == '='
  {
  }

  lemma {:induction false} EarlierOperatorDiffers(q: Punct, p: Punct, s: string)
    requires Rank(q) < Rank(p) && StartsWithOperator(p, s)
    ensures !(PunctText(q) <= s)
  {
    PunctTextLength(p);
    PunctTextLength(q);
    if PunctText(q) <= s {
      if |PunctText(p)| == |PunctText(q)| {
        PunctTextsDiffer(p, q);
      } else {
        LongerOperator(q, p);
      }
    }
  }

  /** No operator tried before `p` is a prefix of such a text. */
  lemma {:induction false} FirstOperatorFrom(k: nat, p: Punct, s: string)
    requires k <= Rank(p) && StartsWithOperator(p, s)
    ensures k <= OPERATOR_COUNT && FirstOperator(k, s) == Some(p)
    decreases Rank(p) - k
  {
    OperatorAtRank(p);
    if k < Rank(p) {
      RankOfOperator(k);
      EarlierOperatorDiffers(Operator(k), p, s);
      FirstOperatorFrom(k + 1, p, s);
    }
  }

  /** The operator found is not later in the list than one that fits. */
  lemma {:induction false} FirstIsEarliest(k: nat, j: nat, s: string)
    requires k <= j < OPERATOR_COUNT && PunctText(Operator(j)) <= s
    ensures FirstOperator(k, s).Some? && Rank(FirstOperator(k, s).value) <= j
    decreases j - k
  {
    RankOfOperator(k);
    if k < j && !(PunctText(Operator(k)) <= s) {
      FirstIsEarliest(k + 1, j, s);
    }
  }

  /** `<`, `>` and `!` are read together with an equals sign. */
  lemma {:induction false} OperatorGrows(p: Punct, s: string)
    requires GrowsWithEquals(p) && PunctText(p) <= s && |s| > 1 && s[1] == '='
    ensures FirstOperator(0, s) != Some(p)
  {
    var longer := if p.LessThan? then LtEq else if p.GreaterThan? then GtEq else NotEq;
    OperatorAtRank(longer);
    FirstIsEarliest(0, Rank(longer), s);
  }

  lemma {:induction false} PunctTextStart(p: Punct)
    ensures var c := PunctText(p)[0];
            !IsSpace(c) && !IsDigit(c) && !IsIdentStart(c) && c != '"' && c != '\''
  {
  }

  lemma {:induction false} LexOneOfString(content: string, s: string, t: string)
    requires s == "\"" + EscapeAll(content) + "\"" + t
    ensures LexOne(s) == Ok((TStr(content), |EscapeAll(content)| + 2))
  {
    StringBodyOfEscaped(content, t);
    assert s[1..] == EscapeAll(content) + "\"" + t;
  }

  lemma {:induction false} LexOneOfText(token: Token, t: string)
    requires Writable(token) && Stops(token, t)
    ensures var s := TokenText(token) + t;
            s != "" && !IsSpace(s[0]) && LexOne(s) == Ok((token, |TokenText(token)|))
  {
    var s := TokenText(token) + t;
    match token {
      case TNum(text) =>
        NumberRunAppend(text, t);
        assert s[..|text|] == text;
      case TStr(content) =>
        LexOneOfString(content, s, t);
      case TIdent(name) =>
        IdentRunAppend(name, t);
        assert s[..|name|] == name;
      case TOp(p) =>
        PunctTextStart(p);
        assert s[|PunctText(p)|..] == t;
        FirstOperatorFrom(0, p, s);
      case TEof =>
    }
  }

  /** A token that goes on is read as another token, or as an error. */
  lemma {:induction false} LexOneMerges(token: Token, t: string)
    requires Writable(token) && !Stops(token, t)
    ensures var s := TokenText(token) + t;
            s != "" && !IsSpace(s[0]) && (LexOne(s).Ok? ==> LexOne(s).value.0 != token)
  {
    var s := TokenText(token) + t;
    match token {
      case TNum(text) =>
        NumberRunAppend(text, t);
      case TIdent(name) =>
        IdentRunThrough(name, t);
      case TOp(p) =>
        PunctTextStart(p);
        OperatorGrows(p, s);
      case _ =>
    }
  }

  lemma {:induction false} LexSkipsGap(gap: string, t: string)
    requires IsGap(gap)
    ensures Lex(gap + t) == Lex(t)
  {
    if gap == "" {
      assert gap + t == t;
    } else {
      assert (gap + t)[1..] == gap[1..] + t;
      LexSkipsGap(gap[1..], t);
    }
  }

  /** The first character of a token extends the token before it exactly when the two need a gap. */
  lemma {:induction false} NextExtends(a: Token, b: Token)
    requires Writable(a) && Writable(b)
    ensures TokenText(b) != "" && (Extends(a, TokenText(b)[0]) <==> NeedsGap(a, b))
  {
    if b.TOp? {
      PunctTextStart(b.punct);
      assert PunctText(b.punct)[0] == '=' <==> b.punct.EqEq?;
      assert PunctText(b.punct)[0] == '.' <==> b.punct.Dot?;
    }
  }

  /** What follows the first token of a layout extends it exactly when a needed gap is missing. */
  lemma {:induction false} RestStops(token: Token, tokens: seq<Token>, gaps: seq<string>)
    requires Writable(token) && Gaps(gaps, tokens) && forall i | 0 <= i < |tokens| :: Writable(tokens[i])
    ensures Stops(token, Layout(tokens, gaps)) <==> tokens == [] || gaps[0] != "" || !NeedsGap(token, tokens[0])
  {
    var rest := Layout(tokens, gaps);
    assert IsGap(gaps[0]);
    if gaps[0] != "" {
      assert rest[0] == gaps[0][0] && IsSpace(rest[0]);
    } else if tokens != [] {
      LayoutFirst(tokens, gaps);
      NextExtends(token, tokens[0]);
      assert rest[0] == TokenText(tokens[0])[0];
    }
  }

  /** One written token before a text that does not extend it. */
  lemma {:induction false} LexOfFirst(gap: string, token: Token, rest: string)
    requires IsGap(gap) && Writable(token) && Stops(token, rest)
    ensures Lex(gap + (TokenText(token) + rest)) == Prepend([token], Lex(rest))
  {
    hide LexOne, TokenText, Writable, IsGap, IsSpace, Stops, Terminated;
    var s := TokenText(token) + rest;
    LexSkipsGap(gap, s);
    LexOneOfText(token, rest);
    assert s[|TokenText(token)|..] == rest;
  }

  /** One written token before a text that extends it. */
  lemma {:induction false} LexOfMerged(gap: string, token: Token, rest: string)
    requires IsGap(gap) && Writable(token) && !Stops(token, rest)
    ensures var r := Lex(gap + (TokenText(token) + rest)); r.Ok? ==> r.value != [] && r.value[0] != token
  {
    hide LexOne, TokenText, Writable, IsGap, IsSpace, Stops;
    LexSkipsGap(gap, TokenText(token) + rest);
    LexOneMerges(token, rest);
  }

  lemma {:induction false} SpacingRest(gaps: seq<string>, tokens: seq<Token>)
    requires tokens != [] && Gaps(gaps, tokens)
    ensures IsGap(gaps[0]) && Gaps(gaps[1..], tokens[1..])
    ensures Spacing(gaps, tokens) <==>
            Spacing(gaps[1..], tokens[1..]) && (|tokens| == 1 || gaps[1] != "" || !NeedsGap(tokens[0], tokens[1]))
  {
    var rest, after := tokens[1..], gaps[1..];
    if Spacing(after, rest) {
      forall i | 1 < i < |tokens| && NeedsGap(tokens[i - 1], tokens[i]) ensures gaps[i] != "" {
        assert tokens[i - 1] == rest[i - 2] && tokens[i] == rest[i - 1] && gaps[i] == after[i - 1];
      }
    }
    if Spacing(gaps, tokens) {
      assert forall i | 0 < i < |rest| :: rest[i - 1] == tokens[i] && rest[i] == tokens[i + 1] && after[i] == gaps[i + 1];
    }
  }

  lemma {:induction false} LayoutFirst(tokens: seq<Token>, gaps: seq<string>)
    requires tokens != [] && |gaps| == |tokens| + 1
    ensures Layout(tokens, gaps) == gaps[0] + (TokenText(tokens[0]) + Layout(tokens[1..], gaps[1..]))
  {
    hide TokenText;
  }

  lemma {:induction false} LexOfGap(gaps: seq<string>)
    requires Gaps(gaps, [])
    ensures Lex(Layout([], gaps)) == Ok([TEof]) && Spacing(gaps, [])
  {
    assert IsGap(gaps[0]);
    LexSkipsGap(gaps[0], "");
    assert gaps[0] + "" == gaps[0];
  }

  lemma {:induction false} SameTail(token: Token, r: Result<seq<Token>, SyntaxError>, ts: seq<Token>)
    ensures Prepend([token], r) == Ok([token] + ts) <==> r == Ok(ts)
  {
    if r.Ok? && [token] + r.value == [token] + ts {
      assert ([token] + r.value)[1..] == r.value && ([token] + ts)[1..] == ts;
    }
  }

  /** One written token, and the tokens of the rest. */
  lemma {:induction false} LexOfNext(gap: string, token: Token, rest: string, ts: seq<Token>)
    requires IsGap(gap) && Writable(token)
    ensures Lex(gap + (TokenText(token) + rest)) == Ok([token] + ts) <==> Stops(token, rest) && Lex(rest) == Ok(ts)
  {
    hide Lex, Writable, TokenText, IsGap, Stops, Terminated, Prepend;
    if Stops(token, rest) {
      LexOfFirst(gap, token, rest);
      SameTail(token, Lex(rest), ts);
    } else {
      LexOfMerged(gap, token, rest);
    }
  }

  /** Tokenizing undoes writing out, for every list of writable tokens, exactly when the spacing keeps them apart. */
  lemma {:induction false} LexOfLayout(tokens: seq<Token>, gaps: seq<string>)
    requires Gaps(gaps, tokens) && forall i | 0 <= i < |tokens| :: Writable(tokens[i])
    ensures Lex(Layout(tokens, gaps)) == Ok(tokens + [TEof]) <==> Spacing(gaps, tokens)
  {
    if tokens == [] {
      LexOfGap(gaps);
      assert tokens + [TEof] == [TEof];
    } else {
      assert |gaps| == |tokens| + 1;
      hide Lex, Writable, TokenText, Layout, Spacing, IsGap, Gaps, NeedsGap, Stops, Terminated;
      var token, others, after := tokens[0], tokens[1..], gaps[1..];
      SpacingRest(gaps, tokens);
      LexOfLayout(others, after);
      RestStops(token, others, after);
      LexOfNext(gaps[0], token, Layout(others, after), others + [TEof]);
      LayoutFirst(tokens, gaps);
      assert [token] + (others + [TEof]) == tokens + [TEof];
    }
  }

  /** One space wherever two tokens need it, and nothing elsewhere. */
  function CompactGaps(tokens: seq<Token>): seq<string> {
    seq(|tokens| + 1, i requires 0 <= i <= |tokens| =>
      if 0 < i < |tokens| && NeedsGap(tokens[i - 1], tokens[i]) then " " else "")
  }

  lemma {:induction false} LayoutGrows(tokens: seq<Token>, gaps: seq<string>, wider: seq<string>)
    requires |gaps| == |wider| == |tokens| + 1 && forall i | 0 <= i < |gaps| :: |gaps[i]| <= |wider[i]|
    ensures |Layout(tokens, gaps)| <= |Layout(tokens, wider)|
  {
    if tokens != [] {
      assert forall i | 0 <= i < |gaps[1..]| :: gaps[1..][i] == gaps[i + 1] && wider[1..][i] == wider[i + 1];
      LayoutGrows(tokens[1..], gaps[1..], wider[1..]);
    }
  }

  /** No spacing that keeps the tokens apart is shorter than the compact one. */
  lemma {:induction false} CompactIsShortest(tokens: seq<Token>, gaps: seq<string>)
    requires Spacing(gaps, tokens)
    ensures Spacing(CompactGaps(tokens), tokens)
    ensures |Layout(tokens, CompactGaps(tokens))| <= |Layout(tokens, gaps)|
  {
    LayoutGrows(tokens, CompactGaps(tokens), gaps);
  }
}
