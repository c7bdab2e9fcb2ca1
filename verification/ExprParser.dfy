/**
 The precedence-climbing parser of the expression language.

 The functions say what the parser makes of a token list: each takes the tokens not yet read, and gives
 the tree with the tokens left, or an error. The class is the parser itself, with a cursor and a depth
 counter. Two things the grammar would not suggest are kept as they are: `expect` compares the value of a
 token and not its kind, so the string literal ")" closes a parenthesis, and a chain of unary operators
 does not count as nesting.
 */
module ExprParser {
  import opened Outcome
  import opened ExprSyntax
  import opened Tokenizer

  datatype Parse = Done(node: Expr, rest: seq<Token>) | Fail(error: SyntaxError)

  datatype ParseArgs = Args(args: seq<Expr>, rest: seq<Token>) | NoArgs(error: SyntaxError)

  /** Word operators arrive as identifiers; they are operators when in operator position. */
  function OperatorOf(t: Token): Option<BinOp> {
    match t
    case TOp(OrOr) => Some(Or)
    case TOp(AndAnd) => Some(And)
    case TOp(EqEq) => Some(Eq)
    case TOp(NotEq) => Some(Ne)
    case TOp(LessThan) => Some(Lt)
    case TOp(LtEq) => Some(Le)
    case TOp(GreaterThan) => Some(Gt)
    case TOp(GtEq) => Some(Ge)
    case TOp(Plus) => Some(Add)
    case TOp(Minus) => Some(Sub)
    case TOp(Star) => Some(Mul)
    case TOp(Slash) => Some(Div)
    case TOp(Percent) => Some(Mod)
    case TIdent(name) => if name == "or" then Some(Or) else if name == "and" then Some(And) else None
    case _ => None
  }

  /** The decimal value of a run of digits. */
  function DigitsValue(s: string): int
  {
    if s == "" then 0 else DigitsValue(s[..|s| - 1]) * 10 + (s[|s| - 1] as int - '0' as int)
  }

  function Pow10(n: nat): (r: int)
    ensures 1 <= r
  {
    if n == 0 then 1 else 10 * Pow10(n - 1)
  }

  /** `Number(text)` on the text of a number token, without rounding. */
  function NumberOf(text: string): real {
    var d := DigitRun(text);
    if d == |text| then DigitsValue(text) as real
    else DigitsValue(text[..d]) as real + DigitsValue(text[d + 1..]) as real / Pow10(|text| - d - 1) as real
  }

  /** Whether the next token has the value of the expected operator, whatever its kind. */
  predicate Closes(t: Token, p: Punct) {
    t.Value() == PunctText(p)
  }

  /** What every parsing function keeps: progress, one token or more a node, and known names. */
  ghost predicate Consumed(r: Parse, ts: seq<Token>) {
    r.Done? ==>
      && Terminated(r.rest) && |r.rest| < |ts|
      && Size(r.node) + |r.rest| <= |ts|
      && NamesKnown(r.node)
  }

  function ParseExpression(ts: seq<Token>, min: nat, depth: nat): (r: Parse)
    requires Terminated(ts)
    ensures Consumed(r, ts)
    decreases |ts|, 4, 1
  {
    if depth + 1 > MAX_DEPTH then Fail(NestedTooDeeply) else ParseFrame(ts, min, depth + 1)
  }

  /** `parseExpression` between the two updates of the depth counter. */
  function ParseFrame(ts: seq<Token>, min: nat, depth: nat): (r: Parse)
    requires Terminated(ts)
    ensures Consumed(r, ts)
    decreases |ts|, 4, 0
  {
    match ParseUnary(ts, depth)
    case Fail(e) => Fail(e)
    case Done(left, rest) => ParseTail(left, rest, min, depth)
  }

  /** The loop over binary operators that bind at least as tightly as `min`, then the ternary. */
  function ParseTail(left: Expr, ts: seq<Token>, min: nat, depth: nat): (r: Parse)
    requires Terminated(ts)
    requires NamesKnown(left)
    ensures r.Done? ==>
      Terminated(r.rest) && |r.rest| <= |ts| && Size(r.node) + |r.rest| <= Size(left) + |ts| && NamesKnown(r.node)
    decreases |ts|, 0, 1
  {
    var op := OperatorOf(ts[0]);
    if op.Some? && Precedence(op.value) >= min then
      match ParseExpression(ts[1..], Precedence(op.value) + 1, depth)
      case Fail(e) => Fail(e)
      case Done(right, rest) => ParseTail(Bin(op.value, left, right), rest, min, depth)
    else AfterOperators(left, ts, min, depth)
  }

  lemma {:induction false} OperatorIsNotEnd(t: Token)
    requires OperatorOf(t).Some?
    ensures t != TEof
  {
  }

  /** One round of the operator loop. */
  lemma {:induction false} TailRound(left: Expr, ts: seq<Token>, min: nat, depth: nat)
    requires Terminated(ts) && NamesKnown(left)
    ensures var op := OperatorOf(ts[0]);
      if op.None? || Precedence(op.value) < min then
        ParseTail(left, ts, min, depth) == AfterOperators(left, ts, min, depth)
      else
        var right := ParseExpression(ts[1..], Precedence(op.value) + 1, depth);
        if right.Fail? then ParseTail(left, ts, min, depth) == Fail(right.error)
        else ParseTail(left, ts, min, depth) == ParseTail(Bin(op.value, left, right.node), right.rest, min, depth)
  {
    hide ParseExpression, AfterOperators, Precedence, Size;
  }

  /** The ternary is the loosest operator, so only a parse from precedence zero looks for it. */
  function AfterOperators(left: Expr, ts: seq<Token>, min: nat, depth: nat): (r: Parse)
    requires Terminated(ts)
    requires NamesKnown(left)
    ensures r.Done? ==>
      Terminated(r.rest) && |r.rest| <= |ts| && Size(r.node) + |r.rest| <= Size(left) + |ts| && NamesKnown(r.node)
    decreases |ts|, 0, 0
  {
    if min == 0 && ts[0] == TOp(Question) then ParseTernary(left, ts[1..], depth) else Done(left, ts)
  }

  function ParseTernary(test: Expr, ts: seq<Token>, depth: nat): (r: Parse)
    requires Terminated(ts)
    requires NamesKnown(test)
    ensures r.Done? ==>
      Terminated(r.rest) && |r.rest| < |ts| && Size(r.node) + |r.rest| <= 1 + Size(test) + |ts| && NamesKnown(r.node)
    decreases |ts|, 5
  {
    match ParseExpression(ts, 0, depth)
    case Fail(e) => Fail(e)
    case Done(a, rest) =>
      if !Closes(rest[0], Colon) then Fail(Expected(Colon))
      else match ParseExpression(rest[1..], 0, depth)
        case Fail(e) => Fail(e)
        case Done(b, rest) => Done(Cond(test, a, b), rest)
  }

  /** An expression and the operator that closes it, after the opening one was read. */
  function ParseEnclosed(ts: seq<Token>, close: Punct, depth: nat): (r: Parse)
    requires Terminated(ts)
    ensures r.Done? ==>
      Terminated(r.rest) && |r.rest| < |ts| && Size(r.node) + |r.rest| < |ts| && NamesKnown(r.node)
    decreases |ts|, 5
  {
    match ParseExpression(ts, 0, depth)
    case Fail(e) => Fail(e)
    case Done(node, rest) => if Closes(rest[0], close) then Done(node, rest[1..]) else Fail(Expected(close))
  }

  function UnaryOf(t: Token): Option<UnaryOp> {
    match t
    case TOp(Minus) => Some(Neg)
    case TOp(Bang) => Some(Not)
    case TIdent(name) => if name == "not" then Some(Not) else None
    case _ => None
  }

  function ParseUnary(ts: seq<Token>, depth: nat): (r: Parse)
    requires Terminated(ts)
    ensures Consumed(r, ts)
    decreases |ts|, 3
  {
    var op := UnaryOf(ts[0]);
    if op.Some? then
      match ParseUnary(ts[1..], depth)
      case Fail(e) => Fail(e)
      case Done(arg, rest) => Done(Unary(op.value, arg), rest)
    else ParsePostfix(ts, depth)
  }

  function ParsePostfix(ts: seq<Token>, depth: nat): (r: Parse)
    requires Terminated(ts)
    ensures Consumed(r, ts)
    decreases |ts|, 2
  {
    match ParsePrimary(ts, depth)
    case Fail(e) => Fail(e)
    case Done(node, rest) => PostfixTail(node, rest, depth)
  }

  predicate IsSuffix(t: Token) {
    t == TOp(Dot) || t == TOp(LBrack)
  }

  function PostfixTail(node: Expr, ts: seq<Token>, depth: nat): (r: Parse)
    requires Terminated(ts)
    requires NamesKnown(node)
    ensures r.Done? ==>
      Terminated(r.rest) && |r.rest| <= |ts| && Size(r.node) + |r.rest| <= Size(node) + |ts| && NamesKnown(r.node)
    decreases |ts|, 0
  {
    if ts[0] == TOp(Dot) then
      if !ts[1].TIdent? then Fail(NotAPropertyName)
      else PostfixTail(Member(node, ts[1].name), ts[2..], depth)
    else if ts[0] == TOp(LBrack) then
      match ParseEnclosed(ts[1..], RBrack, depth)
      case Fail(e) => Fail(e)
      case Done(idx, rest) => PostfixTail(Index(node, idx), rest, depth)
    else Done(node, ts)
  }

  function ParsePrimary(ts: seq<Token>, depth: nat): (r: Parse)
    requires Terminated(ts)
    ensures Consumed(r, ts)
    decreases |ts|, 1
  {
    match ts[0]
    case TNum(text) => Done(Lit(VNum(NumberOf(text))), ts[1..])
    case TStr(content) => Done(Lit(VStr(content)), ts[1..])
    case TOp(LParen) => ParseEnclosed(ts[1..], RParen, depth)
    case TIdent(name) =>
      if name == "true" then Done(Lit(VBool(true)), ts[1..])
      else if name == "false" then Done(Lit(VBool(false)), ts[1..])
      else if name == "null" then Done(Lit(VNull), ts[1..])
      else if ts[1] == TOp(LParen) then ParseCall(name, ts[2..], depth)
      else if IsVariable(name) then Done(Var(name), ts[1..])
      else Fail(UnknownName(name))
    case _ => Fail(UnexpectedToken(ts[0]))
  }

  /** A call whose name and opening parenthesis were just read. */
  function ParseCall(name: string, ts: seq<Token>, depth: nat): (r: Parse)
    requires Terminated(ts)
    ensures r.Done? ==>
      Terminated(r.rest) && |r.rest| < |ts| && Size(r.node) + |r.rest| <= 1 + |ts| && NamesKnown(r.node)
    decreases |ts|, 6
  {
    var args := if ts[0] == TOp(RParen) then Args([], ts) else ParseArguments([], ts, depth);
    match args
    case NoArgs(e) => Fail(e)
    case Args(args, rest) =>
      if !Closes(rest[0], RParen) then Fail(Expected(RParen))
      else if !IsBuiltin(name) then Fail(UnknownFunction(name))
      else Done(Call(name, args), rest[1..])
  }

  /** The loop over arguments: `done` are read, and one more is due. */
  function ParseArguments(done: seq<Expr>, ts: seq<Token>, depth: nat): (r: ParseArgs)
    requires Terminated(ts)
    requires forall i | 0 <= i < |done| :: NamesKnown(done[i])
    ensures r.Args? ==>
      && Terminated(r.rest) && |r.rest| < |ts|
      && Sizes(r.args) + |r.rest| <= Sizes(done) + |ts|
      && forall i | 0 <= i < |r.args| :: NamesKnown(r.args[i])
    decreases |ts|, 5
  {
    match ParseExpression(ts, 0, depth)
    case Fail(e) => NoArgs(e)
    case Done(arg, rest) =>
      SizesAppend(done, arg);
      if rest[0] == TOp(Comma) then ParseArguments(done + [arg], rest[1..], depth)
      else Args(done + [arg], rest)
  }

  /** A whole token list: one expression, and then the end of input. */
  function ParseTokens(ts: seq<Token>): (r: Result<Expr, SyntaxError>)
    requires Terminated(ts)
    ensures r.Ok? ==> Size(r.value) < |ts| && NamesKnown(r.value)
  {
    match ParseExpression(ts, 0, 0)
    case Fail(e) => Err(e)
    case Done(node, rest) => if rest[0] == TEof then Ok(node) else Err(UnexpectedToken(rest[0]))
  }

  // ----- the parser

  class Parser {
    const tokens: seq<Token>
    var pos: nat
    var depth: nat

    constructor (tokens: seq<Token>)
      requires Terminated(tokens)
      ensures this.tokens == tokens && pos == 0 && depth == 0 && Valid()
    {
      this.tokens := tokens;
      pos, depth := 0, 0;
      new;
      assert tokens[0..] == tokens;
    }

    ghost predicate Valid()
      reads this
    {
      pos < |tokens| && Terminated(tokens[pos..])
    }

    ghost function Rest(): seq<Token>
      requires Valid()
      reads this
    {
      tokens[pos..]
    }

    /** The outcome `r` of a method is what the specification says of the tokens it started from. */
    ghost predicate Follows(r: Result<Expr, SyntaxError>, spec: Parse)
      reads this
    {
      match spec
      case Fail(e) => r == Err(e)
      case Done(node, rest) => r == Ok(node) && Valid() && Rest() == rest
    }

    method Peek() returns (t: Token)
      requires Valid()
      ensures t == Rest()[0]
    {
      t := tokens[pos];
    }

    /** Takes the next token. After the end of input nothing is left to read. */
    method Next() returns (t: Token)
      requires Valid()
      modifies `pos
      ensures pos == old(pos) + 1 && t == old(Rest())[0]
      ensures t != TEof ==> Valid() && Rest() == old(Rest())[1..]
    {
      t := tokens[pos];
      assert tokens[pos..][1..] == tokens[pos + 1..];
      pos := pos + 1;
    }

    method Expect(p: Punct) returns (r: Result<Token, SyntaxError>)
      requires Valid()
      modifies `pos
      ensures if Closes(old(Rest())[0], p) then r.Ok? && Valid() && Rest() == old(Rest())[1..] else r == Err(Expected(p))
    {
      var tok := Next();
      if tok.Value() != PunctText(p) {
        return Err(Expected(p));
      }
      return Ok(tok);
    }

    method Run() returns (r: Result<Expr, SyntaxError>)
      requires Valid() && depth == 0
      modifies this
      ensures r == ParseTokens(old(Rest()))
    {
      r := ParseExpr(0);
      if r.Ok? {
        var tail := Peek();
        if tail != TEof {
          r := Err(UnexpectedToken(tail));
        }
      }
    }

    method ParseExpr(min: nat) returns (r: Result<Expr, SyntaxError>)
      requires Valid()
      modifies this
      ensures Follows(r, ParseExpression(old(Rest()), min, old(depth)))
      ensures r.Ok? ==> depth == old(depth) && old(pos) < pos
      decreases |tokens| - pos, 4, 1
    {
      depth := depth + 1;
      if depth > MAX_DEPTH {
        return Err(NestedTooDeeply);
      }
      r := ParseFrameExpr(min);
      if r.Ok? {
        depth := depth - 1;
      }
    }

    method ParseFrameExpr(min: nat) returns (r: Result<Expr, SyntaxError>)
      requires Valid()
      modifies this
      ensures Follows(r, ParseFrame(old(Rest()), min, old(depth)))
      ensures r.Ok? ==> depth == old(depth) && old(pos) < pos
      decreases |tokens| - pos, 4, 0
    {
      r := ParseUnaryExpr();
      if r.Err? {
        return;
      }
      r := ParseOperators(r.value, min);
      if r.Err? {
        return;
      }
      var tok := Peek();
      if min == 0 && tok == TOp(Question) {
        tok := Next();
        r := ParseTernaryExpr(r.value);
      }
    }

    /** The operator loop of `parseExpression`. */
    method ParseOperators(first: Expr, min: nat) returns (r: Result<Expr, SyntaxError>)
      requires Valid() && NamesKnown(first)
      modifies this
      ensures match r
              case Err(e) => ParseTail(first, old(Rest()), min, old(depth)) == Fail(e)
              case Ok(left) =>
                && Valid() && depth == old(depth) && old(pos) <= pos
                && NamesKnown(left)
                && ParseTail(first, old(Rest()), min, depth) == AfterOperators(left, Rest(), min, depth)
      decreases |tokens| - pos, 0
    {
      hide ParseExpression, ParseTail, AfterOperators, OperatorOf, Size, Precedence, Terminated;
      var left := first;
      ghost var d, start := depth, pos;
      ghost var spec := ParseTail(left, Rest(), min, d);
      while true
        invariant Valid() && depth == d && start <= pos
        invariant NamesKnown(left) && spec == ParseTail(left, Rest(), min, d)
        decreases |tokens| - pos
      {
        var tok := Peek();
        var op := OperatorOf(tok);
        TailRound(left, Rest(), min, d);
        if op.None? || Precedence(op.value) < min {
          return Ok(left);
        }
        OperatorIsNotEnd(tok);
        tok := Next();
        r := ParseExpr(Precedence(op.value) + 1);
        if r.Err? {
          return;
        }
        left := Bin(op.value, left, r.value);
      }
    }

    /** The two branches of a conditional whose test and `?` were just read. */
    method ParseTernaryExpr(test: Expr) returns (r: Result<Expr, SyntaxError>)
      requires Valid() && NamesKnown(test)
      modifies this
      ensures Follows(r, ParseTernary(test, old(Rest()), old(depth)))
      ensures r.Ok? ==> depth == old(depth) && old(pos) < pos
      decreases |tokens| - pos, 5
    {
      r := ParseExpr(0);
      if r.Err? {
        return;
      }
      var a := r.value;
      var colon := Expect(Colon);
      if colon.Err? {
        return Err(colon.error);
      }
      r := ParseExpr(0);
      if r.Ok? {
        r := Ok(Cond(test, a, r.value));
      }
    }

    /** An expression in brackets or parentheses, from after the opening one. */
    method ParseEnclosedExpr(close: Punct) returns (r: Result<Expr, SyntaxError>)
      requires Valid()
      modifies this
      ensures Follows(r, ParseEnclosed(old(Rest()), close, old(depth)))
      ensures r.Ok? ==> depth == old(depth) && old(pos) < pos
      decreases |tokens| - pos, 5
    {
      r := ParseExpr(0);
      if r.Err? {
        return;
      }
      var closed := Expect(close);
      if closed.Err? {
        return Err(closed.error);
      }
    }

    method ParseUnaryExpr() returns (r: Result<Expr, SyntaxError>)
      requires Valid()
      modifies this
      ensures Follows(r, ParseUnary(old(Rest()), old(depth)))
      ensures r.Ok? ==> depth == old(depth) && old(pos) < pos
      decreases |tokens| - pos, 3
    {
      var tok := Peek();
      var op := UnaryOf(tok);
      if op.None? {
        r := ParsePostfixExpr();
        return;
      }
      tok := Next();
      r := ParseUnaryExpr();
      if r.Ok? {
        r := Ok(Unary(op.value, r.value));
      }
    }

    method ParsePostfixExpr() returns (r: Result<Expr, SyntaxError>)
      requires Valid()
      modifies this
      ensures Follows(r, ParsePostfix(old(Rest()), old(depth)))
      ensures r.Ok? ==> depth == old(depth) && old(pos) < pos
      decreases |tokens| - pos, 2
    {
      r := ParsePrimaryExpr();
      if r.Ok? {
        r := ParseSuffixes(r.value);
      }
    }

    /** The `.` of a property access and the name after it. */
    method ParsePropertyName() returns (r: Result<string, SyntaxError>)
      requires Valid() && Rest()[0] == TOp(Dot)
      modifies `pos
      ensures if old(Rest())[1].TIdent? then
                Valid() && old(pos) < pos && Rest() == old(Rest())[2..] && r == Ok(old(Rest())[1].name)
              else r == Err(NotAPropertyName)
    {
      var dot := Next();
      var name := Next();
      r := if name.TIdent? then Ok(name.name) else Err(NotAPropertyName);
    }

    /** The loop of `parsePostfix` over property names and indexes. */
    method ParseSuffixes(first: Expr) returns (r: Result<Expr, SyntaxError>)
      requires Valid() && NamesKnown(first)
      modifies this
      ensures Follows(r, PostfixTail(first, old(Rest()), old(depth)))
      ensures r.Ok? ==> depth == old(depth) && old(pos) <= pos
      decreases |tokens| - pos, 7
    {
      var node := first;
      ghost var d, start := depth, pos;
      ghost var spec := PostfixTail(node, Rest(), d);
      while true
        invariant Valid() && depth == d && start <= pos
        invariant NamesKnown(node) && spec == PostfixTail(node, Rest(), d)
        decreases |tokens| - pos
      {
        var tok := Peek();
        if !IsSuffix(tok) {
          return Ok(node);
        }
        r := ParseSuffix(node);
        if r.Err? {
          return;
        }
        node := r.value;
      }
    }

    /** One round of that loop: a property name or an index. */
    method ParseSuffix(node: Expr) returns (r: Result<Expr, SyntaxError>)
      requires Valid() && NamesKnown(node) && IsSuffix(Rest()[0])
      modifies this
      ensures match r
              case Err(e) => PostfixTail(node, old(Rest()), old(depth)) == Fail(e)
              case Ok(node') =>
                && Valid() && depth == old(depth) && old(pos) < pos && NamesKnown(node')
                && PostfixTail(node, old(Rest()), depth) == PostfixTail(node', Rest(), depth)
      decreases |tokens| - pos, 6
    {
      var tok := Peek();
      if tok == TOp(Dot) {
        var name := ParsePropertyName();
        if name.Err? {
          return Err(name.error);
        }
        return Ok(Member(node, name.value));
      }
      tok := Next();
      r := ParseEnclosedExpr(RBrack);
      if r.Ok? {
        r := Ok(Index(node, r.value));
      }
    }

    method ParsePrimaryExpr() returns (r: Result<Expr, SyntaxError>)
      requires Valid()
      modifies this
      ensures Follows(r, ParsePrimary(old(Rest()), old(depth)))
      ensures r.Ok? ==> depth == old(depth) && old(pos) < pos
      decreases |tokens| - pos, 1
    {
      var tok := Next();
      match tok {
        case TNum(text) => return Ok(Lit(VNum(NumberOf(text))));
        case TStr(content) => return Ok(Lit(VStr(content)));
        case TOp(LParen) =>
          r := ParseEnclosedExpr(RParen);
        case TIdent(name) =>
          if name == "true" {
            return Ok(Lit(VBool(true)));
          }
          if name == "false" {
            return Ok(Lit(VBool(false)));
          }
          if name == "null" {
            return Ok(Lit(VNull));
          }
          var next := Peek();
          if next == TOp(LParen) {
            next := Next();
            r := ParseCallExpr(name);
            return;
          }
          if !IsVariable(name) {
            return Err(UnknownName(name));
          }
          return Ok(Var(name));
        case _ => return Err(UnexpectedToken(tok));
      }
    }

    /** The part of `parsePrimary` after the opening parenthesis of a call. */
    method ParseCallExpr(name: string) returns (r: Result<Expr, SyntaxError>)
      requires Valid()
      modifies this
      ensures Follows(r, ParseCall(name, old(Rest()), old(depth)))
      ensures r.Ok? ==> depth == old(depth) && old(pos) < pos
      decreases |tokens| - pos, 6
    {
      var args: seq<Expr> := [];
      var tok := Peek();
      if tok != TOp(RParen) {
        var list := ParseArgumentList();
        if list.Err? {
          return Err(list.error);
        }
        args := list.value;
      }
      var close := Expect(RParen);
      if close.Err? {
        return Err(close.error);
      }
      if !IsBuiltin(name) {
        return Err(UnknownFunction(name));
      }
      return Ok(Call(name, args));
    }

    /** The loop over the arguments of a call. */
    method ParseArgumentList() returns (r: Result<seq<Expr>, SyntaxError>)
      requires Valid()
      modifies this
      ensures match ParseArguments([], old(Rest()), old(depth))
              case NoArgs(e) => r == Err(e)
              case Args(args, rest) => r == Ok(args) && Valid() && Rest() == rest
      ensures r.Ok? ==> depth == old(depth) && old(pos) < pos
      decreases |tokens| - pos, 5
    {
      var args: seq<Expr> := [];
      ghost var d, start := depth, pos;
      ghost var spec := ParseArguments([], Rest(), d);
      while true
        invariant Valid() && depth == d && start <= pos
        invariant forall i | 0 <= i < |args| :: NamesKnown(args[i])
        invariant spec == ParseArguments(args, Rest(), d)
        decreases |tokens| - pos
      {
        var arg := ParseExpr(0);
        if arg.Err? {
          return Err(arg.error);
        }
        args := args + [arg.value];
        var tok := Peek();
        if tok != TOp(Comma) {
          return Ok(args);
        }
        tok := Next();
      }
    }
  }
}
