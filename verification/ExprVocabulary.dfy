/**
 What the texts of the language stand for, said of the tokenizer's and the parser's results: every single
 character, the spelling of every operator, escapes, decimal numbers, single tokens, calls and parentheses.
 */
module ExprVocabulary {
  import opened Outcome
  import opened ExprSyntax
  import opened Tokenizer
  import opened ExprParser
  import ExprPrinter
  import opened ExprGrammar

  // ----- texts and tokens

  lemma {:induction false} LexAlone(t: Token)
    requires Writable(t)
    ensures Lex(TokenText(t)) == Ok([t, TEof])
  {
    LexOfLayout([t], ["", ""]);
    var text := TokenText(t);
    assert Layout([], [""]) == "";
    assert [t][1..] == [] && ["", ""][1..] == [""];
    assert "" + text + "" == text;
    assert [t] + [TEof] == [t, TEof];
  }

  /** Each operator is read from its text. */
  lemma {:induction false} InfixSpelling(o: Infix)
    ensures Lex(InfixText(o)) == Ok([InfixToken(o), TEof])
  {
    InfixIsWritten(o);
    hide *;
    LexAlone(InfixToken(o));
  }

  lemma {:induction false} InfixIsWritten(o: Infix)
    ensures Writable(InfixToken(o)) && TokenText(InfixToken(o)) == InfixText(o)
  {
    assert IsIdentText("or") && IsIdentText("and") by {
      assert "or"[1..] == "r" && "or"[1..][1..] == "";
      assert "and"[1..] == "nd" && "and"[1..][1..] == "d" && "and"[1..][1..][1..] == "";
    }
    hide IsIdentText;
  }

  lemma {:induction false} PrefixSpelling(p: Prefix)
    ensures Lex(PrefixText(p)) == Ok([PrefixToken(p), TEof])
  {
    PrefixIsWritten(p);
    hide *;
    LexAlone(PrefixToken(p));
  }

  lemma {:induction false} PrefixIsWritten(p: Prefix)
    ensures Writable(PrefixToken(p)) && TokenText(PrefixToken(p)) == PrefixText(p)
  {
    assert IsIdentText("not") by {
      assert "not"[1..] == "ot" && "not"[1..][1..] == "t" && "not"[1..][1..][1..] == "";
    }
    hide IsIdentText;
  }

  /** The characters that are a mark by themselves. */
  const MARKS: map<char, Punct> := map[
    '<' := LessThan, '>' := GreaterThan, '+' := Plus, '-' := Minus, '*' := Star, '/' := Slash, '%' := Percent,
    '(' := LParen, ')' := RParen, '[' := LBrack, ']' := RBrack, ',' := Comma, '.' := Dot, '?' := Question, ':' := Colon,
    '!' := Bang]

  lemma {:induction false} MarkSpelling(c: char)
    requires c in MARKS
    ensures Lex([c]) == Ok([TOp(MARKS[c]), TEof])
  {
    hide Lex;
    LexAlone(TOp(MARKS[c]));
  }

  lemma {:induction false} LexOfWord(c: char)
    requires '0' <= c <= '9' || 'a' <= c <= 'z' || 'A' <= c <= 'Z' || c == '_'
    ensures Lex([c]) == Ok([if '0' <= c <= '9' then TNum([c]) else TIdent([c]), TEof])
  {
    assert [c][1..] == "";
    LexAlone(if '0' <= c <= '9' then TNum([c]) else TIdent([c]));
  }

  lemma {:induction false} NoOperatorFrom(k: nat, c: char)
    requires k <= OPERATOR_COUNT && c !in MARKS
    ensures FirstOperator(k, [c]) == None
    decreases OPERATOR_COUNT - k
  {
    if k < OPERATOR_COUNT {
      assert PunctText(Operator(k)) <= [c] ==> PunctText(Operator(k)) == [c] by {
        assert |PunctText(Operator(k))| >= 1;
      }
      NoOperatorFrom(k + 1, c);
    }
  }

  /** What a source of one character is, for every character. */
  lemma {:induction false} OneCharacter(c: char)
    ensures Lex([c]) ==
            if c in {' ', '\t', '\n', '\r'} then Ok([TEof])
            else if '0' <= c <= '9' then Ok([TNum([c]), TEof])
            else if c in {'"', '\''} then Err(UnterminatedString)
            else if 'a' <= c <= 'z' || 'A' <= c <= 'Z' || c == '_' then Ok([TIdent([c]), TEof])
            else if c in MARKS then Ok([TOp(MARKS[c]), TEof])
            else Err(UnexpectedCharacter(c))
  {
    var s := [c];
    assert s[1..] == "";
    if c in MARKS {
      MarkSpelling(c);
    } else if '0' <= c <= '9' || 'a' <= c <= 'z' || 'A' <= c <= 'Z' || c == '_' {
      LexOfWord(c);
    } else if c in {' ', '\t', '\n', '\r'} {
      assert Lex(s) == Lex("");
    } else {
      NoOperatorFrom(0, c);
    }
  }

  /** In either quotes a character stands for itself, and after a backslash for itself or for a break, a tab or a return. */
  lemma {:induction false} QuotedCharacter(quote: char, c: char)
    requires quote in {'"', '\''}
    ensures c != quote && c != '\\' ==> Lex([quote, c, quote]) == Ok([TStr([c]), TEof])
    ensures Lex([quote, '\\', c, quote]) ==
            Ok([TStr([if c == 'n' then '\n' else if c == 't' then '\t' else if c == 'r' then '\r' else c]), TEof])
  {
    var body, plain, escaped := [quote], [c, quote], ['\\', c, quote];
    assert StringBody(body, quote) == Some(("", 1));
    assert plain[1..] == body && escaped[2..] == body;
    assert [c] + "" == [c] && [Escaped(c)] + "" == [Escaped(c)];
    assert c != quote && c != '\\' ==> StringBody(plain, quote) == Some(([c], 2));
    assert StringBody(escaped, quote) == Some(([Escaped(c)], 3));
    var s, t := [quote, c, quote], [quote, '\\', c, quote];
    assert s[1..] == plain && t[1..] == escaped && s[3..] == "" && t[4..] == "";
    assert Lex("") == Ok([TEof]);
    hide Lex;
    assert c != quote && c != '\\' ==> LexOne(s) == Ok((TStr([c]), 3));
    LexOneAlone(t);
    LexOneAlone(s);
  }

  lemma {:induction false} LexOneAlone(s: string)
    requires s != "" && !IsSpace(s[0])
    ensures LexOne(s).Ok? && LexOne(s).value.1 == |s| ==> Lex(s) == Ok([LexOne(s).value.0, TEof])
  {
    if LexOne(s).Ok? && LexOne(s).value.1 == |s| {
      assert s[|s|..] == "";
      assert Lex("") == Ok([TEof]);
      assert [LexOne(s).value.0] + [TEof] == [LexOne(s).value.0, TEof];
      hide LexOne;
    }
  }

  // ----- numbers

  predicate Digits(s: string) {
    forall i | 0 <= i < |s| :: '0' <= s[i] <= '9'
  }

  function DigitOf(c: char): real {
    (c as int - '0' as int) as real
  }

  function TenTo(n: nat): (p: real)
    ensures p >= 1.0
  {
    if n == 0 then 1.0 else 10.0 * TenTo(n - 1)
  }

  lemma {:induction false} RunOfDigits(s: string, t: string)
    requires Digits(s) && (t == "" || t[0] == '.')
    ensures DigitRun(s + t) == |s|
  {
    if s == "" {
      assert s + t == t;
    } else {
      assert (s + t)[1..] == s[1..] + t;
      RunOfDigits(s[1..], t);
    }
  }

  lemma {:induction false} PowersAgree(n: nat)
    ensures Pow10(n) as real == TenTo(n)
  {
    if n > 0 {
      PowersAgree(n - 1);
    }
  }

  /** A whole number's text, a digit at a time. */
  lemma {:induction false} WholeNumber(s: string, d: char)
    requires Digits(s) && '0' <= d <= '9'
    ensures NumberOf([d]) == DigitOf(d)
    ensures s != "" ==> NumberOf(s + [d]) == 10.0 * NumberOf(s) + DigitOf(d)
  {
    RunOfDigits([d], "");
    assert [d] + "" == [d] && [d][..0] == "";
    assert DigitsValue([d]) == d as int - '0' as int;
    RunOfDigits(s, "");
    RunOfDigits(s + [d], "");
    assert s + "" == s && s + [d] + "" == s + [d] && (s + [d])[..|s|] == s;
  }

  lemma {:induction false} NumberWithPoint(s: string, f: string)
    requires Digits(s) && s != ""
    ensures NumberOf(s + "." + f) == NumberOf(s) + DigitsValue(f) as real / TenTo(|f|)
  {
    RunOfDigits(s, "." + f);
    RunOfDigits(s, "");
    assert s + "." + f == s + ("." + f) && s + "" == s;
    var text := s + "." + f;
    assert text[..|s|] == s && text[|s| + 1..] == f;
    PowersAgree(|f|);
  }

  /** Behind a point each digit counts a tenth of the one before; a point with nothing behind it adds nothing. */
  lemma {:induction false} DecimalNumber(s: string, f: string, d: char)
    requires Digits(s) && s != "" && Digits(f) && '0' <= d <= '9'
    ensures NumberOf(s + ".") == NumberOf(s)
    ensures NumberOf(s + "." + (f + [d])) == NumberOf(s + "." + f) + DigitOf(d) / TenTo(|f| + 1)
  {
    NumberWithPoint(s, "");
    assert s + "." + "" == s + ".";
    NumberWithPoint(s, f);
    NumberWithPoint(s, f + [d]);
    assert (f + [d])[..|f|] == f;
    assert DigitsValue(f + [d]) as real == 10.0 * DigitsValue(f) as real + DigitOf(d);
    hide NumberOf, DigitsValue;
    AddTenths(DigitsValue(f) as real, TenTo(|f|), DigitOf(d));
  }

  lemma {:induction false} AddTenths(v: real, p: real, x: real)
    requires p >= 1.0
    ensures (10.0 * v + x) / (10.0 * p) == v / p + x / (10.0 * p)
  {
    assert (10.0 * v) / (10.0 * p) == v / p;
  }

  // ----- single tokens

  lemma {:induction false} NothingReads(depth: nat)
    requires depth <= 63
    ensures ParseUnary([TEof], depth) == Fail(UnexpectedToken(TEof))
    ensures ParseExpression([TEof], 0, depth) == Fail(UnexpectedToken(TEof))
  {
  }

  /** What a source of one token is, for every token. */
  lemma {:induction false} OneToken(t: Token)
    requires t != TEof
    ensures Terminated([t, TEof])
    ensures ParseTokens([t, TEof]) ==
            if t.TNum? then Ok(Lit(VNum(NumberOf(t.text))))
            else if t.TStr? then Ok(Lit(VStr(t.content)))
            else if t == TIdent("true") then Ok(Lit(VBool(true)))
            else if t == TIdent("false") then Ok(Lit(VBool(false)))
            else if t == TIdent("null") then Ok(Lit(VNull))
            else if t in {TIdent("input"), TIdent("output"), TIdent("expected"), TIdent("metadata")} then Ok(Var(t.name))
            else if t in {TIdent("not"), TOp(Minus), TOp(Bang), TOp(LParen)} then Err(UnexpectedToken(TEof))
            else if t.TIdent? then Err(UnknownName(t.name))
            else Err(UnexpectedToken(t))
  {
    var ts := [t, TEof];
    assert ts[1..] == [TEof];
    if AtomTree(t).Some? {
      var c := Chain(Plain(Atom(t)), []);
      ParseOfChain(c);
      assert ChainTokens(c) + [TEof] == ts;
    } else {
      NothingReads(1);
      assert UnaryOf(t) == None ==>
          ParsePrimary(ts, 1) == Fail(UnexpectedToken(if t == TOp(LParen) then TEof else t))
          || (t.TIdent? && ParsePrimary(ts, 1) == Fail(UnknownName(t.name))) by {
        assert t == TOp(LParen) ==> ParseEnclosed(ts[1..], RParen, 1) == Fail(UnexpectedToken(TEof));
      }
      assert ParseUnary(ts, 1).Fail? && ParseUnary(ts, 1) == if UnaryOf(t) == None then ParsePostfix(ts, 1) else Fail(UnexpectedToken(TEof));
      hide PostfixTail, ParseTail, NumberOf;
      assert ParseFrame(ts, 0, 1) == ParseUnary(ts, 1);
    }
  }

  // ----- calls

  /** The functions of one argument, and those of two. */
  const ONE_ARGUMENT: set<string> :=
    {"len", "lower", "upper", "trim", "words", "jsonValid", "jsonParse", "num", "abs", "round", "isEmpty"}
  const TWO_ARGUMENTS: set<string> :=
    {"contains", "startsWith", "endsWith", "matches", "exactMatch", "jsonPath", "has", "min", "max", "coalesce"}

  function ArgumentsTokens(args: seq<Chain>, rest: seq<Token>): seq<Token> {
    if args == [] then rest
    else ChainTokens(args[0]) + if |args| == 1 then rest else [TOp(Comma)] + ArgumentsTokens(args[1..], rest)
  }

  function Trees(args: seq<Chain>): seq<Expr>
    requires forall i | 0 <= i < |args| :: ValidChain(args[i])
  {
    if args == [] then [] else [ChainTree(args[0])] + Trees(args[1..])
  }

  lemma {:induction false} OperandStart(o: Operand)
    requires Valid(o)
    ensures OperandTokens(o)[0] != TOp(RParen)
  {
    if o.Plain? {
      PrimaryStart(o.primary);
    }
  }

  lemma {:induction false} PrimaryStart(p: Primary)
    requires ValidPrimary(p)
    ensures PrimaryTokens(p)[0] != TOp(RParen)
  {
    if p.Dotted? {
      PrimaryStart(p.obj);
    }
  }

  lemma {:induction false} ArgumentRead(done: seq<Expr>, arg: Chain, rest: seq<Token>, depth: nat)
    requires forall i | 0 <= i < |done| :: NamesKnown(done[i])
    requires ValidChain(arg) && Terminated(rest) && rest[0] in {TOp(Comma), TOp(RParen)} && depth <= 56
    ensures var ts := ChainTokens(arg) + rest;
            && Terminated(ts) && NamesKnown(ChainTree(arg))
            && (rest[0] == TOp(RParen) ==> ParseArguments(done, ts, depth) == Args(done + [ChainTree(arg)], rest))
            && (rest[0] == TOp(Comma) ==>
                  Terminated(rest[1..]) && ParseArguments(done, ts, depth) == ParseArguments(done + [ChainTree(arg)], rest[1..], depth))
  {
    ChainEnds(arg, rest, depth);
    TerminatedTail(rest);
    hide ParseExpression, ChainTokens, ChainTree, ValidChain, Terminated, NamesKnown;
  }

  lemma {:induction false} ArgumentThenMore(done: seq<Expr>, arg: Chain, tail: seq<Token>, depth: nat)
    requires forall i | 0 <= i < |done| :: NamesKnown(done[i])
    requires ValidChain(arg) && Terminated(tail) && depth <= 56
    ensures var ts := ChainTokens(arg) + ([TOp(Comma)] + tail);
            && Terminated(ts) && NamesKnown(ChainTree(arg))
            && ParseArguments(done, ts, depth) == ParseArguments(done + [ChainTree(arg)], tail, depth)
  {
    TerminatedAfter([TOp(Comma)], tail);
    var rest := [TOp(Comma)] + tail;
    assert rest[0] == TOp(Comma) && rest[1..] == tail;
    hide ParseArguments, ChainTokens, ChainTree, ValidChain, NamesKnown, Terminated;
    ArgumentRead(done, arg, rest, depth);
  }

  lemma {:induction false} ArgumentsShape(done: seq<Expr>, args: seq<Chain>, rest: seq<Token>)
    requires args != [] && forall i | 0 <= i < |args| :: ValidChain(args[i])
    ensures |args| == 1 ==> ArgumentsTokens(args, rest) == ChainTokens(args[0]) + rest && Trees(args) == [ChainTree(args[0])]
    ensures |args| > 1 ==> ArgumentsTokens(args, rest) == ChainTokens(args[0]) + ([TOp(Comma)] + ArgumentsTokens(args[1..], rest))
    ensures |args| > 1 ==> done + [ChainTree(args[0])] + Trees(args[1..]) == done + Trees(args)
  {
    hide ChainTokens, ChainTree, ValidChain;
  }

  lemma {:induction false} ArgumentsRead(done: seq<Expr>, args: seq<Chain>, rest: seq<Token>, depth: nat)
    requires forall i | 0 <= i < |done| :: NamesKnown(done[i])
    requires args != [] && (forall i | 0 <= i < |args| :: ValidChain(args[i])) && depth <= 56
    requires Terminated(rest) && rest[0] == TOp(RParen)
    ensures var ts := ArgumentsTokens(args, rest);
            Terminated(ts) && ParseArguments(done, ts, depth) == Args(done + Trees(args), rest)
    decreases args
  {
    ArgumentsShape(done, args, rest);
    hide ParseArguments, ChainTokens, ChainTree, ValidChain, Terminated, NamesKnown, Trees, ArgumentsTokens;
    if |args| == 1 {
      ArgumentRead(done, args[0], rest, depth);
    } else {
      ChainKnown(args[0]);
      var more, others := done + [ChainTree(args[0])], args[1..];
      ArgumentsRead(more, others, rest, depth);
      ArgumentThenMore(done, args[0], ArgumentsTokens(others, rest), depth);
    }
  }

  lemma {:induction false} ListCloses(name: string, trees: seq<Expr>, ts: seq<Token>, depth: nat)
    requires Terminated(ts)
    requires if ts[0] == TOp(RParen) then trees == [] && ts == [TOp(RParen), TEof]
             else ParseArguments([], ts, depth) == Args(trees, [TOp(RParen), TEof])
    ensures ParseCall(name, ts, depth) ==
            if name in ONE_ARGUMENT + TWO_ARGUMENTS then Done(Call(name, trees), [TEof]) else Fail(UnknownFunction(name))
  {
    assert [TOp(RParen), TEof][1..] == [TEof];
    Listed(name);
    hide ParseArguments, IsBuiltin;
  }

  lemma {:induction false} Listed(name: string)
    ensures IsBuiltin(name) <==> name in ONE_ARGUMENT + TWO_ARGUMENTS
  {
  }

  lemma {:induction false} ListReads(name: string, args: seq<Chain>, depth: nat)
    requires (forall i | 0 <= i < |args| :: ValidChain(args[i])) && depth <= 56
    ensures var ts := ArgumentsTokens(args, [TOp(RParen), TEof]);
            && Terminated(ts)
            && ParseCall(name, ts, depth) ==
               if name in ONE_ARGUMENT + TWO_ARGUMENTS then Done(Call(name, Trees(args)), [TEof]) else Fail(UnknownFunction(name))
  {
    var rest := [TOp(RParen), TEof];
    assert rest[0] == TOp(RParen) && Terminated(rest);
    if args != [] {
      OperandStart(args[0].first);
      assert ArgumentsTokens(args, rest)[0] == OperandTokens(args[0].first)[0];
      hide ParseCall, ArgumentsTokens, Trees, OperandTokens, ONE_ARGUMENT, TWO_ARGUMENTS;
      ArgumentsRead([], args, rest, depth);
      assert [] + Trees(args) == Trees(args);
    }
    ListCloses(name, Trees(args), ArgumentsTokens(args, rest), depth);
    hide *;
  }

  /** A primary with nothing behind it that it would take is the whole expression. */
  lemma {:induction false} PrimaryAlone(ts: seq<Token>, depth: nat)
    requires Terminated(ts) && UnaryOf(ts[0]) == None && depth + 1 <= 64
    requires var p := ParsePrimary(ts, depth + 1); p.Done? ==> EndsChain(p.rest) && p.rest[0] != TOp(Question)
    ensures ParseExpression(ts, 0, depth) == ParsePrimary(ts, depth + 1)
  {
    var p := ParsePrimary(ts, depth + 1);
    hide ParsePrimary, Terminated;
    if p.Done? {
      assert PostfixTail(p.node, p.rest, depth + 1) == Done(p.node, p.rest);
      TailRound(p.node, p.rest, 0, depth + 1);
    }
    assert ParsePostfix(ts, depth + 1) == p;
    assert ParseUnary(ts, depth + 1) == p;
  }

  /** A call of any name with any chains as arguments: accepted exactly for the names listed, whatever the number of arguments. */
  lemma {:induction false} CallReads(name: string, args: seq<Chain>)
    requires name !in {"true", "false", "null", "not"} && forall i | 0 <= i < |args| :: ValidChain(args[i])
    ensures var ts := [TIdent(name), TOp(LParen)] + ArgumentsTokens(args, [TOp(RParen), TEof]);
            && Terminated(ts)
            && ParseTokens(ts) == if name in ONE_ARGUMENT + TWO_ARGUMENTS then Ok(Call(name, Trees(args))) else Err(UnknownFunction(name))
  {
    var list := ArgumentsTokens(args, [TOp(RParen), TEof]);
    ListReads(name, args, 1);
    TerminatedAfter([TIdent(name), TOp(LParen)], list);
    var ts := [TIdent(name), TOp(LParen)] + list;
    assert ts[0] == TIdent(name) && ts[1] == TOp(LParen) && ts[2..] == list;
    CallStarts(ts, name, list);
    hide *;
    PrimaryIsAll(ts);
  }

  lemma {:induction false} CallStarts(ts: seq<Token>, name: string, list: seq<Token>)
    requires Terminated(ts) && Terminated(list) && name !in {"true", "false", "null", "not"}
    requires |ts| > 2 && ts[0] == TIdent(name) && ts[1] == TOp(LParen) && ts[2..] == list
    ensures ParsePrimary(ts, 1) == ParseCall(name, list, 1) && UnaryOf(ts[0]) == None
  {
    hide ParseCall;
  }

  lemma {:induction false} PrimaryIsAll(ts: seq<Token>)
    requires Terminated(ts) && UnaryOf(ts[0]) == None
    requires ParsePrimary(ts, 1).Done? ==> ParsePrimary(ts, 1).rest == [TEof]
    ensures ParseTokens(ts) == if ParsePrimary(ts, 1).Done? then Ok(ParsePrimary(ts, 1).node) else Err(ParsePrimary(ts, 1).error)
  {
    PrimaryAlone(ts, 0);
    hide ParsePrimary, ParseExpression, Terminated;
  }

  // ----- parentheses

  function Wrapped(k: nat, inner: seq<Token>, rest: seq<Token>): seq<Token> {
    if k == 0 then inner + rest else [TOp(LParen)] + Wrapped(k - 1, inner, [TOp(RParen)] + rest)
  }

  lemma {:induction false} Closing(rest: seq<Token>)
    requires Terminated(rest)
    ensures EndsChain([TOp(RParen)] + rest) && ([TOp(RParen)] + rest)[0] == TOp(RParen) && ([TOp(RParen)] + rest)[1..] == rest
  {
    TerminatedAfter([TOp(RParen)], rest);
  }

  lemma {:induction false} Opening(k: nat, t: Token, rest: seq<Token>)
    requires k > 0 && Terminated(Wrapped(k - 1, [t], [TOp(RParen)] + rest))
    ensures var ts := Wrapped(k, [t], rest);
            Terminated(ts) && ts[0] == TOp(LParen) && ts[1..] == Wrapped(k - 1, [t], [TOp(RParen)] + rest)
  {
    TerminatedAfter([TOp(LParen)], Wrapped(k - 1, [t], [TOp(RParen)] + rest));
  }

  lemma {:induction false} AtomAlone(t: Token, rest: seq<Token>, depth: nat)
    requires AtomTree(t).Some? && EndsChain(rest) && rest[0] != TOp(Question)
    ensures Terminated([t] + rest)
    ensures ParseExpression([t] + rest, 0, depth) == if depth + 1 <= 64 then Done(AtomTree(t).value, rest) else Fail(NestedTooDeeply)
  {
    TerminatedAfter([t], rest);
    if depth + 1 <= 64 {
      var o := Plain(Atom(t));
      assert Valid(o) && OperandTokens(o) == [t] && OperandTree(o) == AtomTree(t).value;
      hide ParseFrame, OperatorOf, AtomTree;
      FrameReads(o, rest, 0, depth);
      TailRound(AtomTree(t).value, rest, 0, depth + 1);
    }
    hide ParseFrame, ParseTail;
  }

  lemma {:induction false} WrappedReads(k: nat, t: Token, rest: seq<Token>, depth: nat)
    requires AtomTree(t).Some? && EndsChain(rest) && rest[0] != TOp(Question)
    ensures Terminated(Wrapped(k, [t], rest))
    ensures ParseExpression(Wrapped(k, [t], rest), 0, depth) ==
            if depth + 1 + k <= 64 then Done(AtomTree(t).value, rest) else Fail(NestedTooDeeply)
    decreases k
  {
    assert Terminated(rest);
    AtomKnown(t);
    if k == 0 {
      AtomAlone(t, rest, depth);
      hide ParseExpression, Terminated, AtomTree;
    } else {
      Closing(rest);
      hide Wrapped, AtomTree, Terminated, EndsChain, ParseFrame, ParseTail;
      WrappedReads(k - 1, t, [TOp(RParen)] + rest, depth + 1);
      Opening(k, t, rest);
      if depth + 1 <= 64 {
        EnclosedIn(Wrapped(k, [t], rest), AtomTree(t).value, [TOp(RParen)] + rest, rest, depth + 1, depth + 1 + k);
      }
    }
  }

  lemma {:induction false} AtomKnown(t: Token)
    requires AtomTree(t).Some?
    ensures NamesKnown(AtomTree(t).value)
  {
  }

  lemma {:induction false} EnclosedIn(ts: seq<Token>, node: Expr, closing: seq<Token>, rest: seq<Token>, depth: nat, need: nat)
    requires Terminated(ts) && ts[0] == TOp(LParen) && Terminated(ts[1..]) && NamesKnown(node)
    requires Terminated(closing) && closing[0] == TOp(RParen) && closing[1..] == rest
    requires EndsChain(rest) && rest[0] != TOp(Question) && 0 < depth < need && depth <= 64
    requires ParseExpression(ts[1..], 0, depth) == if need <= 64 then Done(node, closing) else Fail(NestedTooDeeply)
    ensures ParseExpression(ts, 0, depth - 1) == if need <= 64 then Done(node, rest) else Fail(NestedTooDeeply)
  {
    hide ParseExpression, OperatorOf;
    assert ParsePrimary(ts, depth) == ParseEnclosed(ts[1..], RParen, depth);
    PrimaryAlone(ts, depth - 1);
  }

  /** Parentheses nest to a depth of exactly 63. */
  lemma {:induction false} ParenthesesNest(k: nat, t: Token)
    requires AtomTree(t).Some?
    ensures var ts := Wrapped(k, [t], [TEof]);
            Terminated(ts) && ParseTokens(ts) == if k <= 63 then Ok(AtomTree(t).value) else Err(NestedTooDeeply)
  {
    WrappedReads(k, t, [TEof], 0);
    hide ParseExpression, Wrapped;
  }

  // ----- what closes

  lemma {:induction false} AtomThen(t: Token, rest: seq<Token>, depth: nat)
    requires AtomTree(t).Some? && Terminated(rest) && rest[0].TStr? && depth <= 60
    ensures Terminated([t] + rest) && NamesKnown(AtomTree(t).value)
    ensures ParseExpression([t] + rest, 0, depth) == Done(AtomTree(t).value, rest)
  {
    AtomAlone(t, rest, depth);
    AtomKnown(t);
  }

  /** After an operand in parentheses a text token closes them if it holds `)`, and is out of place otherwise. */
  lemma {:induction false} TextCloses(t: Token, s: string)
    requires AtomTree(t).Some?
    ensures var ts := [TOp(LParen), t, TStr(s), TEof];
            Terminated(ts) && ParseTokens(ts) == if s == ")" then Ok(AtomTree(t).value) else Err(Expected(RParen))
  {
    var ts := [TOp(LParen), t, TStr(s), TEof];
    var rest := [TStr(s), TEof];
    assert ts[1..] == [t] + rest && rest[1..] == [TEof];
    AtomThen(t, rest, 1);
    hide ParseExpression, AtomTree;
    assert ParsePrimary(ts, 1) == ParseEnclosed(ts[1..], RParen, 1);
    PrimaryIsAll(ts);
  }

  lemma {:induction false} TernaryWithText(test: Expr, a: Expr, b: Expr, ts: seq<Token>, second: seq<Token>, s: string)
    requires NamesKnown(test) && NamesKnown(a) && NamesKnown(b) && Terminated(ts) && Terminated(second)
    requires ParseExpression(ts, 0, 1) == Done(a, second) && second[0] == TStr(s)
    requires Terminated(second[1..]) && ParseExpression(second[1..], 0, 1) == Done(b, [TEof])
    ensures ParseTernary(test, ts, 1) == if s == ":" then Done(Cond(test, a, b), [TEof]) else Fail(Expected(Colon))
  {
    hide ParseExpression, Terminated, NamesKnown;
  }

  lemma {:induction false} QuestionReads(t: Token, ts: seq<Token>, first: seq<Token>)
    requires AtomTree(t).Some? && Terminated(first) && first[0] == TOp(Question) && ts == first[1..] && Terminated(ts)
    ensures Terminated([t] + first) && NamesKnown(AtomTree(t).value)
    ensures ParseExpression([t] + first, 0, 0) == ParseTernary(AtomTree(t).value, ts, 1)
  {
    AtomChain(t);
    QuestionStarts(AtomTree(t).value, first, ts);
    hide *;
    ChainReads(Chain(Plain(Atom(t)), []), first, 0);
  }

  lemma {:induction false} AtomChain(t: Token)
    requires AtomTree(t).Some?
    ensures var c := Chain(Plain(Atom(t)), []);
            ValidChain(c) && ChainTokens(c) == [t] && ChainTree(c) == AtomTree(t).value && NamesKnown(AtomTree(t).value)
  {
    AtomKnown(t);
  }

  lemma {:induction false} QuestionStarts(test: Expr, first: seq<Token>, ts: seq<Token>)
    requires NamesKnown(test) && Terminated(first) && first[0] == TOp(Question) && ts == first[1..] && Terminated(ts)
    ensures EndsChain(first) && AfterOperators(test, first, 0, 1) == ParseTernary(test, ts, 1)
  {
    hide ParseTernary;
  }

  /** So with a text token in the place of the colon. */
  lemma {:induction false} TextSeparates(t: Token, a: Token, s: string, b: Token)
    requires AtomTree(t).Some? && AtomTree(a).Some? && AtomTree(b).Some?
    ensures var ts := [t, TOp(Question), a, TStr(s), b, TEof];
            && Terminated(ts)
            && ParseTokens(ts) == if s == ":" then Ok(Cond(AtomTree(t).value, AtomTree(a).value, AtomTree(b).value)) else Err(Expected(Colon))
  {
    var ts := [t, TOp(Question), a, TStr(s), b, TEof];
    var first, second := [TOp(Question), a, TStr(s), b, TEof], [TStr(s), b, TEof];
    assert ts == [t] + first && first[1..] == [a] + second && second[1..] == [b] + [TEof];
    assert Terminated(first) && Terminated(second) && Terminated([b] + [TEof]) && Terminated([a] + second);
    AtomThen(a, second, 1);
    AtomAlone(b, [TEof], 1);
    AtomKnown(b);
    hide ParseExpression, AtomTree, ParseTernary, Terminated, NamesKnown;
    QuestionReads(t, [a] + second, first);
    TernaryWithText(AtomTree(t).value, AtomTree(a).value, AtomTree(b).value, [a] + second, second, s);
  }

  // ----- whole sources

  /** From text: a chain in any layout compiles to its grouping, if the source has at most 4000 characters. */
  lemma {:induction false} CompileOfChain(c: Chain, gaps: seq<string>)
    requires ValidChain(c) && (forall i | 0 <= i < |ChainTokens(c)| :: Writable(ChainTokens(c)[i])) && Spacing(gaps, ChainTokens(c))
    ensures var text := Layout(ChainTokens(c), gaps);
            ExprPrinter.Compile(text) == if |text| > 4000 then Err(SourceTooLong) else Ok(ChainTree(c))
  {
    ExprPrinter.LayoutIsNotBlank(ChainTokens(c), gaps);
    LexOfLayout(ChainTokens(c), gaps);
    ParseOfChain(c);
    hide Lex, Layout, ParseTokens, ChainTokens, ChainTree, ValidChain, Writable, Spacing, Terminated;
  }
}
