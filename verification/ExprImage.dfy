/**
 Which trees the parser can return: exactly the printable ones that nest within the limit. So printing is
 a normal form: whatever source a tree was compiled from, its printed form compiles to the same tree.
 */
module ExprImage {
  import opened Outcome
  import opened Basics
  import opened ExprSyntax
  import opened Tokenizer
  import opened ExprParser
  import opened ExprPrinter

  // ----- the tokenizer makes only tokens that have a text

  lemma {:induction false} DigitRunOfPrefix(s: string)
    ensures DigitRun(s[..DigitRun(s)]) == DigitRun(s)
  {
    if s != "" && IsDigit(s[0]) {
      DigitRunOfPrefix(s[1..]);
      assert s[..DigitRun(s)][1..] == s[1..][..DigitRun(s[1..])];
    }
  }

  lemma {:induction false} IdentRunOfPrefix(s: string)
    ensures IdentRun(s[..IdentRun(s)]) == IdentRun(s)
  {
    if s != "" && IsIdentPart(s[0]) {
      IdentRunOfPrefix(s[1..]);
      assert s[..IdentRun(s)][1..] == s[1..][..IdentRun(s[1..])];
    }
  }

  lemma {:induction false} NumberRunOfPrefix(s: string)
    ensures NumberRun(s[..NumberRun(s)]) == NumberRun(s)
  {
    var d := DigitRun(s);
    DigitRunOfPrefix(s);
    if d < |s| && s[d] == '.' {
      var tail := s[d + 1..];
      var t := s[..NumberRun(s)];
      DigitRunOfPrefix(tail);
      assert t[d + 1..] == tail[..DigitRun(tail)];
      assert t == s[..d] + t[d..];
      DigitRunAppend(s[..d], t[d..]);
    }
  }

  lemma {:induction false} LexOneIsWritable(s: string)
    requires s != "" && !IsSpace(s[0])
    ensures var r := LexOne(s); r.Ok? ==> Writable(r.value.0)
  {
    hide FirstOperator, StringBody;
    if IsDigit(s[0]) {
      NumberRunOfPrefix(s);
    } else if IsIdentStart(s[0]) {
      IdentRunOfPrefix(s);
    }
  }

  lemma {:induction false} LexIsReady(s: string)
    ensures var r := Lex(s); r.Ok? ==> Ready(r.value)
  {
    hide LexOne, Writable;
    if s != "" {
      if IsSpace(s[0]) {
        LexIsReady(s[1..]);
      } else {
        LexOneIsWritable(s);
        var first := LexOne(s);
        if first.Ok? {
          LexIsReady(s[first.value.1..]);
        }
      }
    }
  }

  // ----- what each parsing function returns

  /** A printable tree that, printed at a level, can be read while `depth` expressions are open. */
  ghost predicate Fits(e: Expr, level: nat, depth: nat) {
    Printable(e) && depth + Nesting(e, level) <= MAX_DEPTH
  }

  /** The tokens left over do not continue an expression parsed from precedence `min`. */
  ghost predicate Left(ts: seq<Token>, min: nat) {
    Ready(ts) && var op := OperatorOf(ts[0]); op.Some? ==> Precedence(op.value) < min
  }

  /** A left operand in the operator loop: it fits as an operand of anything, or it is the result of a
      previous round, and then no operator that follows binds tighter. */
  ghost predicate FitsLoop(left: Expr, ts: seq<Token>, min: nat, depth: nat) {
    || Fits(left, 7, depth)
    || (left.Bin? && min <= Binding(left) && Fits(left, 0, depth) && Left(ts, Binding(left) + 1))
  }

  ghost predicate Returns(r: Parse, level: nat, depth: nat) {
    r.Done? ==> Fits(r.node, level, depth) && Ready(r.rest)
  }

  ghost predicate ReturnsLeft(r: Parse, level: nat, depth: nat) {
    r.Done? ==> Fits(r.node, level, depth) && Left(r.rest, level)
  }

  lemma {:induction false} RestReady(ts: seq<Token>)
    requires Ready(ts) && ts[0] != TEof
    ensures Ready(ts[1..])
  {
  }

  lemma {:induction false} FitsLooser(e: Expr, level: nat, level': nat, depth: nat)
    requires Fits(e, level, depth) && (level' <= level || level' <= Binding(e))
    ensures Fits(e, level', depth)
  {
    hide Printable;
  }

  lemma {:induction false} LoopFits(left: Expr, ts: seq<Token>, min: nat, level: nat, depth: nat)
    requires Ready(ts) && FitsLoop(left, ts, min, depth) && level <= 7
    requires level <= min || (OperatorOf(ts[0]).Some? && level == Precedence(OperatorOf(ts[0]).value))
    ensures Fits(left, level, depth)
  {
    hide Printable, Nesting;
    FitsLooser(left, if Fits(left, 7, depth) then 7 else 0, level, depth);
  }

  lemma {:induction false} BinFits(op: BinOp, l: Expr, r: Expr, min: nat, rest: seq<Token>, depth: nat)
    requires Fits(l, Precedence(op), depth) && Fits(r, Precedence(op) + 1, depth + 1)
    requires min <= Precedence(op) && Left(rest, Precedence(op) + 1)
    ensures NamesKnown(Bin(op, l, r)) && FitsLoop(Bin(op, l, r), rest, min, depth)
  {
    hide Left;
    var e := Bin(op, l, r);
    assert BareNesting(e) == Max(Nesting(l, Precedence(op)), 1 + Nesting(r, Precedence(op) + 1));
    assert Printable(e);
  }

  lemma {:induction false} UnaryNodeFits(op: UnaryOp, arg: Expr, depth: nat)
    requires Fits(arg, 7, depth)
    ensures NamesKnown(Unary(op, arg)) && Fits(Unary(op, arg), 7, depth)
  {
    assert Printable(Unary(op, arg));
  }

  lemma {:induction false} MemberFits(obj: Expr, name: string, depth: nat)
    requires Fits(obj, 8, depth) && IsIdentText(name)
    ensures NamesKnown(Member(obj, name)) && Fits(Member(obj, name), 8, depth)
  {
    assert Printable(Member(obj, name));
  }

  lemma {:induction false} IndexFits(obj: Expr, idx: Expr, depth: nat)
    requires Fits(obj, 8, depth) && Fits(idx, 0, depth + 1)
    ensures NamesKnown(Index(obj, idx)) && Fits(Index(obj, idx), 8, depth)
  {
    assert Printable(Index(obj, idx));
  }

  lemma {:induction false} CallNodeFits(name: string, args: seq<Expr>, depth: nat)
    requires IsBuiltin(name) && forall i | 0 <= i < |args| :: Printable(args[i])
    requires depth + ArgsNesting(args) <= MAX_DEPTH
    ensures Fits(Call(name, args), 8, depth)
  {
    assert Printable(Call(name, args));
  }

  lemma {:induction false} CondFits(test: Expr, a: Expr, b: Expr, depth: nat)
    requires Fits(test, 1, depth) && Fits(a, 0, depth + 1) && Fits(b, 0, depth + 1)
    ensures Fits(Cond(test, a, b), 0, depth)
  {
  }

  lemma {:induction false} EnclosedFits(e: Expr, depth: nat)
    requires Fits(e, 0, depth + 1)
    ensures Fits(e, 8, depth)
  {
    hide Printable;
  }

  lemma {:induction false} ExpressionFits(ts: seq<Token>, min: nat, depth: nat)
    requires Ready(ts) && min <= 7
    ensures ReturnsLeft(ParseExpression(ts, min, depth), min, depth + 1)
    decreases |ts|, 4, 1
  {
    hide ParseFrame, Fits, Left, Ready;
    if depth < MAX_DEPTH {
      FrameFits(ts, min, depth + 1);
    }
  }

  lemma {:induction false} FrameFits(ts: seq<Token>, min: nat, depth: nat)
    requires Ready(ts) && min <= 7 && depth <= MAX_DEPTH
    ensures ReturnsLeft(ParseFrame(ts, min, depth), min, depth)
    decreases |ts|, 4, 0
  {
    hide ParseUnary, ParseTail, Fits, Left, Ready;
    UnaryFits(ts, depth);
    var r := ParseUnary(ts, depth);
    if r.Done? {
      TailFits(r.node, r.rest, min, depth);
    }
  }

  lemma {:induction false} TailFits(left: Expr, ts: seq<Token>, min: nat, depth: nat)
    requires Ready(ts) && NamesKnown(left) && min <= 7 && depth <= MAX_DEPTH && FitsLoop(left, ts, min, depth)
    ensures ReturnsLeft(ParseTail(left, ts, min, depth), min, depth)
    decreases |ts|, 0, 1
  {
    hide ParseTail, ParseExpression, AfterOperators, Precedence, OperatorOf, Fits, FitsLoop, Left, Ready, NamesKnown, Size;
    TailRound(left, ts, min, depth);
    var op := OperatorOf(ts[0]);
    if op.None? || Precedence(op.value) < min {
      AfterFits(left, ts, min, depth);
    } else {
      var p := Precedence(op.value);
      OperatorIsNotEnd(ts[0]);
      RestReady(ts);
      ExpressionFits(ts[1..], p + 1, depth);
      var right := ParseExpression(ts[1..], p + 1, depth);
      if right.Done? {
        LoopFits(left, ts, min, p, depth);
        BinFits(op.value, left, right.node, min, right.rest, depth);
        LeftIsReady(right.rest, p + 1);
        TailFits(Bin(op.value, left, right.node), right.rest, min, depth);
      }
    }
  }

  lemma {:induction false} LeftIsReady(ts: seq<Token>, min: nat)
    requires Left(ts, min)
    ensures Ready(ts)
  {
  }

  lemma {:induction false} AfterFits(left: Expr, ts: seq<Token>, min: nat, depth: nat)
    requires Ready(ts) && NamesKnown(left) && min <= 7 && depth <= MAX_DEPTH && FitsLoop(left, ts, min, depth)
    requires var op := OperatorOf(ts[0]); op.None? || Precedence(op.value) < min
    ensures ReturnsLeft(AfterOperators(left, ts, min, depth), min, depth)
    decreases |ts|, 0, 0
  {
    hide ParseTernary, ParseExpression, Fits, FitsLoop, Ready, Precedence, OperatorOf, NamesKnown;
    LoopFits(left, ts, min, min, depth);
    if min == 0 && ts[0] == TOp(Question) {
      RestReady(ts);
      QuestionFits(left, ts, depth);
      TernaryFits(left, ts[1..], depth);
    }
  }

  lemma {:induction false} QuestionFits(left: Expr, ts: seq<Token>, depth: nat)
    requires Ready(ts) && ts[0] == TOp(Question) && FitsLoop(left, ts, 0, depth)
    ensures Fits(left, 1, depth)
  {
    hide Printable, Nesting;
    FitsLooser(left, if Fits(left, 7, depth) then 7 else 0, 1, depth);
  }

  lemma {:induction false} TernaryFits(test: Expr, ts: seq<Token>, depth: nat)
    requires Ready(ts) && NamesKnown(test) && depth <= MAX_DEPTH && Fits(test, 1, depth)
    ensures ReturnsLeft(ParseTernary(test, ts, depth), 0, depth)
    decreases |ts|, 5
  {
    hide ParseExpression, Fits, Left, Ready, NamesKnown, Size;
    ExpressionFits(ts, 0, depth);
    var a := ParseExpression(ts, 0, depth);
    if a.Done? {
      LeftIsReady(a.rest, 0);
      if Closes(a.rest[0], Colon) {
        RestReady(a.rest);
        ExpressionFits(a.rest[1..], 0, depth);
        var b := ParseExpression(a.rest[1..], 0, depth);
        if b.Done? {
          CondFits(test, a.node, b.node, depth);
        }
      }
    }
  }

  lemma {:induction false} EnclosedReturns(ts: seq<Token>, close: Punct, depth: nat)
    requires Ready(ts) && depth <= MAX_DEPTH
    ensures Returns(ParseEnclosed(ts, close, depth), 0, depth + 1)
    decreases |ts|, 5
  {
    hide ParseExpression, Fits, Left, Ready, NamesKnown, Size;
    ExpressionFits(ts, 0, depth);
    var r := ParseExpression(ts, 0, depth);
    if r.Done? {
      LeftIsReady(r.rest, 0);
      if Closes(r.rest[0], close) {
        RestReady(r.rest);
      }
    }
  }

  lemma {:induction false} UnaryFits(ts: seq<Token>, depth: nat)
    requires Ready(ts) && depth <= MAX_DEPTH
    ensures Returns(ParseUnary(ts, depth), 7, depth)
    ensures var r := ParseUnary(ts, depth); r.Done? ==> FitsLoop(r.node, r.rest, 0, depth)
    decreases |ts|, 3
  {
    hide ParsePostfix, Ready, NamesKnown, Size, Left;
    if UnaryOf(ts[0]).Some? {
      RestReady(ts);
      UnaryFits(ts[1..], depth);
      var r := ParseUnary(ts[1..], depth);
      if r.Done? {
        UnaryNodeFits(UnaryOf(ts[0]).value, r.node, depth);
      }
    } else {
      PostfixFits(ts, depth);
      var r := ParsePostfix(ts, depth);
      if r.Done? {
        FitsLooser(r.node, 8, 7, depth);
      }
    }
  }

  lemma {:induction false} PostfixFits(ts: seq<Token>, depth: nat)
    requires Ready(ts) && depth <= MAX_DEPTH
    ensures Returns(ParsePostfix(ts, depth), 8, depth)
    decreases |ts|, 2
  {
    hide ParsePrimary, PostfixTail, Fits, Ready, NamesKnown, Size;
    PrimaryFits(ts, depth);
    var r := ParsePrimary(ts, depth);
    if r.Done? {
      SuffixesFit(r.node, r.rest, depth);
    }
  }

  lemma {:induction false} SuffixesFit(node: Expr, ts: seq<Token>, depth: nat)
    requires Ready(ts) && NamesKnown(node) && depth <= MAX_DEPTH && Fits(node, 8, depth)
    ensures Returns(PostfixTail(node, ts, depth), 8, depth)
    decreases |ts|, 0
  {
    hide ParseEnclosed, Fits, Ready, NamesKnown, Size, IsIdentText;
    if ts[0] == TOp(Dot) {
      RestReady(ts);
      if ts[1].TIdent? {
        NameAfterDot(ts);
        RestReady(ts[1..]);
        assert ts[1..][1..] == ts[2..];
        MemberFits(node, ts[1].name, depth);
        SuffixesFit(Member(node, ts[1].name), ts[2..], depth);
      }
    } else if ts[0] == TOp(LBrack) {
      RestReady(ts);
      EnclosedReturns(ts[1..], RBrack, depth);
      var r := ParseEnclosed(ts[1..], RBrack, depth);
      if r.Done? {
        IndexFits(node, r.node, depth);
        SuffixesFit(Index(node, r.node), r.rest, depth);
      }
    }
  }

  lemma {:induction false} NameAfterDot(ts: seq<Token>)
    requires Ready(ts) && ts[0] == TOp(Dot) && ts[1].TIdent?
    ensures IsIdentText(ts[1].name)
  {
    assert Writable(ts[1]);
  }

  lemma {:induction false} PrimaryFits(ts: seq<Token>, depth: nat)
    requires Ready(ts) && depth <= MAX_DEPTH
    ensures Returns(ParsePrimary(ts, depth), 8, depth)
    decreases |ts|, 1
  {
    hide ParseEnclosed, ParseCall, Ready, NamesKnown, Size, IsVariable, NumberOf, Fits;
    match ts[0] {
      case TNum(text) =>
        NumberFits(ts, text, depth);
        RestReady(ts);
      case TStr(content) =>
        LeafFits(Lit(VStr(content)), depth);
        RestReady(ts);
      case TOp(LParen) =>
        RestReady(ts);
        EnclosedReturns(ts[1..], RParen, depth);
        var r := ParseEnclosed(ts[1..], RParen, depth);
        if r.Done? {
          EnclosedFits(r.node, depth);
        }
      case TIdent(name) =>
        RestReady(ts);
        LeafFits(Lit(VBool(name == "true")), depth);
        LeafFits(Lit(VNull), depth);
        if IsVariable(name) {
          LeafFits(Var(name), depth);
        }
        if ts[1] == TOp(LParen) {
          RestReady(ts[1..]);
          assert ts[1..][1..] == ts[2..];
          CallFits(name, ts[2..], depth);
        }
      case _ =>
    }
  }

  lemma {:induction false} LeafFits(e: Expr, depth: nat)
    requires e.Lit? ==> e.v.VNull? || e.v.VBool? || e.v.VStr?
    requires e.Lit? || (e.Var? && IsVariable(e.name))
    requires depth <= MAX_DEPTH
    ensures Fits(e, 8, depth)
  {
    assert Printable(e);
  }

  lemma {:induction false} NumberFits(ts: seq<Token>, text: string, depth: nat)
    requires Ready(ts) && ts[0] == TNum(text) && depth <= MAX_DEPTH
    ensures Fits(Lit(VNum(NumberOf(text))), 8, depth)
  {
    assert Writable(ts[0]);
    assert IsNumberText(text) && NumberOf(text) == NumberOf(text);
    assert HasNumberText(NumberOf(text));
    assert Printable(Lit(VNum(NumberOf(text))));
  }

  lemma {:induction false} CallFits(name: string, ts: seq<Token>, depth: nat)
    requires Ready(ts) && depth <= MAX_DEPTH
    ensures Returns(ParseCall(name, ts, depth), 8, depth)
    decreases |ts|, 6
  {
    hide ParseArguments, Ready, Fits, IsBuiltin, NamesKnown, Size, Sizes;
    if ts[0] == TOp(RParen) {
      RestReady(ts);
      if IsBuiltin(name) {
        CallNodeFits(name, [], depth);
      }
    } else {
      ArgumentsFit([], ts, depth);
      var r := ParseArguments([], ts, depth);
      if r.Args? && Closes(r.rest[0], RParen) {
        RestReady(r.rest);
        if IsBuiltin(name) {
          CallNodeFits(name, r.args, depth);
        }
      }
    }
  }

  lemma {:induction false} ArgsNestingAppend(args: seq<Expr>, arg: Expr)
    ensures ArgsNesting(args + [arg]) == Max(ArgsNesting(args), 1 + Nesting(arg, 0))
  {
    hide Nesting;
    if args == [] {
      assert args + [arg] == [arg];
    } else {
      ArgsNestingAppend(args[1..], arg);
      assert (args + [arg])[1..] == args[1..] + [arg];
    }
  }

  lemma {:induction false} ArgumentsFit(done: seq<Expr>, ts: seq<Token>, depth: nat)
    requires Ready(ts) && depth <= MAX_DEPTH
    requires forall i | 0 <= i < |done| :: NamesKnown(done[i]) && Printable(done[i])
    requires depth + ArgsNesting(done) <= MAX_DEPTH
    ensures var r := ParseArguments(done, ts, depth);
      r.Args? ==>
        && Ready(r.rest) && depth + ArgsNesting(r.args) <= MAX_DEPTH
        && forall i | 0 <= i < |r.args| :: Printable(r.args[i])
    decreases |ts|, 5
  {
    hide ParseExpression, Left, Ready, NamesKnown, Size, Sizes, Printable, Nesting, ArgsNesting;
    ExpressionFits(ts, 0, depth);
    var r := ParseExpression(ts, 0, depth);
    if r.Done? {
      LeftIsReady(r.rest, 0);
      SizesAppend(done, r.node);
      ArgsNestingAppend(done, r.node);
      if r.rest[0] == TOp(Comma) {
        RestReady(r.rest);
        ArgumentsFit(done + [r.node], r.rest[1..], depth);
      }
    }
  }

  // ----- the trees the parser returns, and the normal form

  /** A tree is the result of parsing some token list exactly when it is printable and nests within the limit. */
  lemma {:induction false} ParserImage(e: Expr)
    ensures (exists ts :: Ready(ts) && ParseTokens(ts) == Ok(e)) <==> Printable(e) && 1 + Nesting(e, 0) <= MAX_DEPTH
  {
    hide Printable, Nesting, ParseTokens, Ready;
    if ts :| Ready(ts) && ParseTokens(ts) == Ok(e) {
      ParsedIsPrintable(ts);
    }
    if Printable(e) && 1 + Nesting(e, 0) <= MAX_DEPTH {
      ParseOfPrint(e);
      assert Ready(Tokens(e) + [TEof]);
    }
  }

  lemma {:induction false} ParsedIsPrintable(ts: seq<Token>)
    requires Ready(ts)
    ensures var r := ParseTokens(ts); r.Ok? ==> Printable(r.value) && 1 + Nesting(r.value, 0) <= MAX_DEPTH
  {
    hide ParseExpression, Printable, Nesting;
    ExpressionFits(ts, 0, 0);
  }

  /** Whatever source a tree was compiled from, printing it and parsing the print gives the same tree, and
      so does compiling the print in any spacing that keeps its tokens apart and is not too long. */
  lemma {:induction false} PrintIsNormalForm(source: string, e: Expr)
    requires Compile(source) == Ok(e)
    ensures Printable(e) && ParseTokens(Tokens(e) + [TEof]) == Ok(e)
    ensures forall gaps | Spacing(gaps, Tokens(e)) && |Layout(Tokens(e), gaps)| <= MAX_EXPRESSION_LENGTH ::
      Compile(Layout(Tokens(e), gaps)) == Ok(e)
  {
    hide Lex, ParseTokens, Printable, Nesting;
    LexIsReady(source);
    ParsedIsPrintable(Lex(source).value);
    ParseOfPrint(e);
    forall gaps | Spacing(gaps, Tokens(e)) {
      CompileOfPrint(e, gaps);
    }
  }
}
