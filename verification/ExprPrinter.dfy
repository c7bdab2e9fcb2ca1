/**
 Compiling a source, and printing a tree: with only the parentheses that precedence and associativity
 require, in any spacing that keeps the tokens apart. Compiling what was printed gives back the tree exactly
 when the tree nests no deeper than the parser allows; otherwise the parser reports that it nests too deeply.
 */
module ExprPrinter {
  import opened Outcome
  import opened Basics
  import opened JsText
  import opened ExprSyntax
  import opened Tokenizer
  import opened ExprParser

  function Compile(source: string): (r: Result<Expr, SyntaxError>)
    ensures r.Ok? ==> Size(r.value) <= |source| <= 4000 && NamesKnown(r.value)
  {
    if IsBlank(source) then Err(EmptySource)
    else if |source| > MAX_EXPRESSION_LENGTH then Err(SourceTooLong)
    else match Lex(source)
      case Err(e) => Err(e)
      case Ok(tokens) => ParseTokens(tokens)
  }

  method CompileExpression(source: string) returns (r: Result<Expr, SyntaxError>)
    ensures r == Compile(source)
  {
    if IsBlank(source) {
      return Err(EmptySource);
    }
    if |source| > MAX_EXPRESSION_LENGTH {
      return Err(SourceTooLong);
    }
    var tokens := Tokenize(source);
    if tokens.Err? {
      return Err(tokens.error);
    }
    var parser := new Parser(tokens.value);
    assert parser.Rest() == tokens.value;
    r := parser.Run();
  }

  // ----- printing

  /** How tightly a tree binds: 0 a conditional, 1 to 6 a binary operator, 7 a unary one, 8 the rest. */
  function Binding(e: Expr): (level: nat)
    ensures level <= 8
  {
    match e
    case Cond(_, _, _) => 0
    case Bin(op, _, _) => Precedence(op)
    case Unary(_, _) => 7
    case _ => 8
  }

  /** A number literal is any value that some number text denotes; a shortest such text is used to print it. */
  ghost predicate HasNumberText(v: real) {
    exists text :: IsNumberText(text) && NumberOf(text) == v
  }

  ghost predicate Shortest(text: string, v: real) {
    && IsNumberText(text) && NumberOf(text) == v
    && forall other | IsNumberText(other) && NumberOf(other) == v :: |text| <= |other|
  }

  lemma {:induction false} ShortestExists(text: string, v: real)
    requires IsNumberText(text) && NumberOf(text) == v
    ensures exists shortest :: Shortest(shortest, v)
    decreases |text|
  {
    hide IsNumberText, NumberOf;
    if other :| IsNumberText(other) && NumberOf(other) == v && |other| < |text| {
      ShortestExists(other, v);
    } else {
      assert Shortest(text, v);
    }
  }

  ghost function NumberText(v: real): (text: string)
    requires HasNumberText(v)
    ensures IsNumberText(text) && NumberOf(text) == v && Shortest(text, v)
  {
    var any :| IsNumberText(any) && NumberOf(any) == v;
    ShortestExists(any, v);
    var text :| Shortest(text, v);
    text
  }

  /** The trees that have a printed form: scalar literals, known names, identifiers as property names. */
  ghost predicate Printable(e: Expr)
    ensures Printable(e) ==> NamesKnown(e)
  {
    match e
    case Lit(v) => v.VNull? || v.VBool? || v.VStr? || (v.VNum? && HasNumberText(v.n))
    case Var(name) => IsVariable(name)
    case Member(obj, name) => Printable(obj) && IsIdentText(name)
    case Index(obj, idx) => Printable(obj) && Printable(idx)
    case Call(name, args) => IsBuiltin(name) && forall i | 0 <= i < |args| :: Printable(args[i])
    case Unary(_, arg) => Printable(arg)
    case Bin(_, l, r) => Printable(l) && Printable(r)
    case Cond(test, a, b) => Printable(test) && Printable(a) && Printable(b)
  }

  function OperatorToken(op: BinOp): (t: Token)
    ensures Writable(t)
  {
    match op
    case Or => TOp(OrOr)
    case And => TOp(AndAnd)
    case Eq => TOp(EqEq)
    case Ne => TOp(NotEq)
    case Lt => TOp(LessThan)
    case Le => TOp(LtEq)
    case Gt => TOp(GreaterThan)
    case Ge => TOp(GtEq)
    case Add => TOp(Plus)
    case Sub => TOp(Minus)
    case Mul => TOp(Star)
    case Div => TOp(Slash)
    case Mod => TOp(Percent)
  }

  function UnaryToken(op: UnaryOp): (t: Token)
    ensures Writable(t)
  {
    match op
    case Neg => TOp(Minus)
    case Not => TOp(Bang)
  }

  lemma {:induction false} NameIsIdentText(name: string)
    requires IsVariable(name) || IsBuiltin(name)
    ensures IsIdentText(name)
  {
    if IsVariable(name) {
      VariableIsIdent(name);
    } else if IsBuiltin1(name) {
      Builtin1IsIdent(name);
    } else {
      Builtin2IsIdent(name);
    }
    AllPartsIsIdent(name);
  }

  lemma {:induction false} VariableIsIdent(name: string)
    requires IsVariable(name)
    ensures name != "" && IsIdentStart(name[0]) && forall i | 0 <= i < |name| :: IsIdentPart(name[i])
  {
  }

  lemma {:induction false} Builtin1IsIdent(name: string)
    requires IsBuiltin1(name)
    ensures name != "" && IsIdentStart(name[0]) && forall i | 0 <= i < |name| :: IsIdentPart(name[i])
  {
  }

  lemma {:induction false} Builtin2IsIdent(name: string)
    requires IsBuiltin2(name)
    ensures name != "" && IsIdentStart(name[0]) && forall i | 0 <= i < |name| :: IsIdentPart(name[i])
  {
  }

  lemma {:induction false} AllPartsIsIdent(name: string)
    requires forall i | 0 <= i < |name| :: IsIdentPart(name[i])
    ensures IdentRun(name) == |name|
  {
    if name != "" {
      AllPartsIsIdent(name[1..]);
    }
  }

  ghost function LiteralToken(v: Value): (t: Token)
    requires Printable(Lit(v))
    ensures Writable(t) && UnaryOf(t) == None && t != TOp(RParen)
  {
    AllPartsIsIdent("null");
    AllPartsIsIdent("true");
    AllPartsIsIdent("false");
    match v
    case VNull => TIdent("null")
    case VBool(b) => TIdent(if b then "true" else "false")
    case VNum(n) => TNum(NumberText(n))
    case VStr(s) => TStr(s)
  }

  /** A token list that ends at the end of input and has a text before it. */
  predicate Ready(ts: seq<Token>)
    ensures Ready(ts) ==> Terminated(ts) && ts != []
  {
    Terminated(ts) && forall i | 0 <= i < |ts| - 1 :: Writable(ts[i])
  }

  function Cons(t: Token, ts: seq<Token>): (r: seq<Token>)
    requires Writable(t) && Ready(ts)
    ensures Ready(r) && r[0] == t && |r| == |ts| + 1
  {
    [t] + ts
  }

  lemma {:induction false} ConsTail(t: Token, ts: seq<Token>)
    requires Writable(t) && Ready(ts)
    ensures Cons(t, ts)[1..] == ts
  {
  }

  /** The tokens of a tree, where a binding of at least `level` is needed, followed by `rest`. */
  ghost function Print(e: Expr, level: nat, rest: seq<Token>): (ts: seq<Token>)
    requires Printable(e) && level <= 8 && Ready(rest)
    ensures Ready(ts) && |rest| < |ts|
    decreases e, 1
  {
    if Binding(e) < level then Cons(TOp(LParen), Bare(e, Cons(TOp(RParen), rest))) else Bare(e, rest)
  }

  /** The tokens of a tree without parentheses around it: the left operand of a binary operator may have
      the same precedence, the right one must bind tighter. */
  ghost function Bare(e: Expr, rest: seq<Token>): (ts: seq<Token>)
    requires Printable(e) && Ready(rest)
    ensures Ready(ts) && |rest| < |ts|
    decreases e, 0
  {
    match e
    case Lit(v) => Cons(LiteralToken(v), rest)
    case Var(name) =>
      NameIsIdentText(name);
      Cons(TIdent(name), rest)
    case Member(obj, name) => Print(obj, 8, Cons(TOp(Dot), Cons(TIdent(name), rest)))
    case Index(obj, idx) => Print(obj, 8, Cons(TOp(LBrack), Print(idx, 0, Cons(TOp(RBrack), rest))))
    case Call(name, args) =>
      NameIsIdentText(name);
      Cons(TIdent(name), Cons(TOp(LParen), PrintArgs(args, Cons(TOp(RParen), rest))))
    case Unary(op, arg) => Cons(UnaryToken(op), Print(arg, 7, rest))
    case Bin(op, l, r) => Print(l, Precedence(op), Cons(OperatorToken(op), Print(r, Precedence(op) + 1, rest)))
    case Cond(test, a, b) =>
      Print(test, 1, Cons(TOp(Question), Print(a, 0, Cons(TOp(Colon), Print(b, 0, rest)))))
  }

  ghost function PrintArgs(args: seq<Expr>, rest: seq<Token>): (ts: seq<Token>)
    requires (forall i | 0 <= i < |args| :: Printable(args[i])) && Ready(rest)
    ensures Ready(ts) && |rest| <= |ts|
    decreases args
  {
    if args == [] then rest
    else Print(args[0], 0, if |args| == 1 then rest else Cons(TOp(Comma), PrintArgs(args[1..], rest)))
  }

  /** How many more parses of a whole expression are open at once while the printed tree is read. */
  function Nesting(e: Expr, level: nat): nat
    decreases e, 1
  {
    if Binding(e) < level then 1 + BareNesting(e) else BareNesting(e)
  }

  function BareNesting(e: Expr): nat
    decreases e, 0
  {
    match e
    case Lit(_) => 0
    case Var(_) => 0
    case Member(obj, _) => Nesting(obj, 8)
    case Index(obj, idx) => Max(Nesting(obj, 8), 1 + Nesting(idx, 0))
    case Call(_, args) => ArgsNesting(args)
    case Unary(_, arg) => Nesting(arg, 7)
    case Bin(op, l, r) => Max(Nesting(l, Precedence(op)), 1 + Nesting(r, Precedence(op) + 1))
    case Cond(test, a, b) => Max(Nesting(test, 1), Max(1 + Nesting(a, 0), 1 + Nesting(b, 0)))
  }

  function ArgsNesting(args: seq<Expr>): nat
    decreases args
  {
    if args == [] then 0 else Max(1 + Nesting(args[0], 0), ArgsNesting(args[1..]))
  }

  // ----- reading back what was printed

  /** What may follow a printed tree: nothing that would extend its last operand. */
  predicate Stops(ts: seq<Token>) {
    Ready(ts) && !IsSuffix(ts[0]) && ts[0] != TOp(LParen)
  }

  /** What may follow a tree printed at a level: also no operator that binds tighter, and no `?` at 0. */
  predicate StopsAt(ts: seq<Token>, level: nat) {
    && Stops(ts)
    && (var op := OperatorOf(ts[0]); op.Some? ==> Precedence(op.value) <= level)
    && (level == 0 ==> ts[0] != TOp(Question))
  }

  /** What ends a tree parsed at a level: no operator that the parse would still take. */
  predicate Ends(ts: seq<Token>, level: nat) {
    && Stops(ts)
    && (var op := OperatorOf(ts[0]); op.Some? ==> Precedence(op.value) < level)
    && (level == 0 ==> ts[0] != TOp(Question))
  }

  /** The outcome `parsed`, unless reading the tree takes the parser below its depth limit. */
  function Guarded(open: nat, parsed: Parse): Parse {
    if open <= MAX_DEPTH then parsed else Fail(NestedTooDeeply)
  }

  // ----- how the outcomes of the parts make the outcome of the whole

  lemma {:induction false} OperandOutcome(e: Expr, ts: seq<Token>, rest: seq<Token>, min: nat, depth: nat, n: nat)
    requires Ready(ts) && Ready(rest) && NamesKnown(e)
    requires ParseUnary(ts, depth) == Guarded(depth + n, Done(e, rest))
    ensures ParseFrame(ts, min, depth) == Guarded(depth + n, ParseTail(e, rest, min, depth))
  {
    hide ParseUnary, ParseTail;
  }

  lemma {:induction false} OperatorReadBack(op: BinOp)
    ensures OperatorOf(OperatorToken(op)) == Some(op)
    ensures OperatorToken(op) != TOp(LParen) && !IsSuffix(OperatorToken(op)) && OperatorToken(op) != TOp(Question)
  {
  }

  /** The operator loop takes an operator and its right operand. */
  lemma {:induction false} BinTail(op: BinOp, l: Expr, r: Expr, right: seq<Token>, rest: seq<Token>, min: nat, depth: nat, n: nat)
    requires Ready(right) && Ready(rest) && NamesKnown(l) && NamesKnown(r) && min <= Precedence(op)
    requires ParseExpression(right, Precedence(op) + 1, depth) == Guarded(n, Done(r, rest))
    ensures ParseTail(l, Cons(OperatorToken(op), right), min, depth)
         == Guarded(n, ParseTail(Bin(op, l, r), rest, min, depth))
  {
    hide ParseExpression, AfterOperators, OperatorOf, OperatorToken, Precedence, Size, Ready, Terminated, Cons;
    OperatorReadBack(op);
    ConsTail(OperatorToken(op), right);
  }

  lemma {:induction false} BinOutcome(op: BinOp, l: Expr, r: Expr, left: seq<Token>, right: seq<Token>, rest: seq<Token>,
                   min: nat, depth: nat, nl: nat, nr: nat)
    requires Ready(left) && Ready(right) && Ready(rest) && NamesKnown(l) && NamesKnown(r)
    requires min <= Precedence(op)
    requires ParseExpression(right, Precedence(op) + 1, depth) == Guarded(depth + 1 + nr, Done(r, rest))
    requires ParseFrame(left, min, depth)
          == Guarded(depth + nl, ParseTail(l, Cons(OperatorToken(op), right), min, depth))
    ensures ParseFrame(left, min, depth)
         == Guarded(depth + Max(nl, 1 + nr), ParseTail(Bin(op, l, r), rest, min, depth))
  {
    hide ParseExpression, ParseFrame, ParseTail, OperatorToken, Precedence, Size, NamesKnown, Ready, Terminated, Cons;
    BinTail(op, l, r, right, rest, min, depth, depth + 1 + nr);
  }

  lemma {:induction false} TernaryOutcome(test: Expr, a: Expr, b: Expr, ts: seq<Token>, last: seq<Token>, rest: seq<Token>,
                       depth: nat, na: nat, nb: nat)
    requires Ready(ts) && Ready(last) && Ready(rest)
    requires NamesKnown(test) && NamesKnown(a) && NamesKnown(b)
    requires ParseExpression(ts, 0, depth) == Guarded(depth + 1 + na, Done(a, Cons(TOp(Colon), last)))
    requires ParseExpression(last, 0, depth) == Guarded(depth + 1 + nb, Done(b, rest))
    ensures ParseTernary(test, ts, depth) == Guarded(depth + Max(1 + na, 1 + nb), Done(Cond(test, a, b), rest))
  {
    hide ParseExpression, Ready, Terminated, Cons;
    ConsTail(TOp(Colon), last);
  }

  lemma {:induction false} CondOutcome(e: Expr, tested: seq<Token>, branches: seq<Token>, rest: seq<Token>,
                    depth: nat, nt: nat, nab: nat)
    requires e.Cond? && NamesKnown(e) && Ready(tested) && Ready(branches) && StopsAt(rest, 0)
    requires ParseTernary(e.test, branches, depth) == Guarded(depth + nab, Done(e, rest))
    requires ParseFrame(tested, 0, depth)
          == Guarded(depth + nt, ParseTail(e.test, Cons(TOp(Question), branches), 0, depth))
    ensures ParseFrame(tested, 0, depth) == Guarded(depth + Max(nt, nab), ParseTail(e, rest, 0, depth))
  {
    hide ParseFrame, ParseTernary, Terminated, Cons;
    ConsTail(TOp(Question), branches);
  }

  lemma {:induction false} EnclosedOutcome(e: Expr, close: Punct, ts: seq<Token>, rest: seq<Token>, depth: nat, n: nat)
    requires Ready(ts) && Ready(rest) && NamesKnown(e)
    requires ParseExpression(ts, 0, depth) == Guarded(depth + 1 + n, Done(e, Cons(TOp(close), rest)))
    ensures ParseEnclosed(ts, close, depth) == Guarded(depth + 1 + n, Done(e, rest))
  {
    hide ParseExpression, Ready, Terminated, Cons;
    ConsTail(TOp(close), rest);
  }

  lemma {:induction false} ParensOutcome(e: Expr, ts: seq<Token>, rest: seq<Token>, depth: nat, n: nat)
    requires Ready(ts) && Ready(rest) && NamesKnown(e)
    requires ParseEnclosed(ts, RParen, depth) == Guarded(depth + 1 + n, Done(e, rest))
    ensures ParsePostfix(Cons(TOp(LParen), ts), depth) == Guarded(depth + 1 + n, PostfixTail(e, rest, depth))
  {
    hide ParseEnclosed, PostfixTail, Ready, Terminated, Cons;
    ConsTail(TOp(LParen), ts);
  }

  lemma {:induction false} MemberOutcome(e: Expr, ts: seq<Token>, rest: seq<Token>, depth: nat, n: nat)
    requires e.Member? && NamesKnown(e) && IsIdentText(e.name) && Ready(ts) && Ready(rest)
    requires ParsePostfix(ts, depth)
          == Guarded(depth + n, PostfixTail(e.obj, Cons(TOp(Dot), Cons(TIdent(e.name), rest)), depth))
    ensures ParsePostfix(ts, depth) == Guarded(depth + n, PostfixTail(e, rest, depth))
  {
    hide ParsePostfix, Terminated, Cons;
    var named := Cons(TIdent(e.name), rest);
    ConsTail(TIdent(e.name), rest);
    ConsTail(TOp(Dot), named);
    assert Cons(TOp(Dot), named)[2..] == named[1..];
  }

  lemma {:induction false} IndexOutcome(e: Expr, ts: seq<Token>, inner: seq<Token>, rest: seq<Token>, depth: nat, n: nat, ni: nat)
    requires e.Index? && NamesKnown(e) && Ready(ts) && Ready(inner) && Ready(rest)
    requires ParseEnclosed(inner, RBrack, depth) == Guarded(depth + 1 + ni, Done(e.idx, rest))
    requires ParsePostfix(ts, depth) == Guarded(depth + n, PostfixTail(e.obj, Cons(TOp(LBrack), inner), depth))
    ensures ParsePostfix(ts, depth) == Guarded(depth + Max(n, 1 + ni), PostfixTail(e, rest, depth))
  {
    hide ParsePostfix, ParseEnclosed, Terminated, Cons;
    ConsTail(TOp(LBrack), inner);
  }

  lemma {:induction false} CallOutcome(e: Expr, list: seq<Token>, rest: seq<Token>, depth: nat)
    requires e.Call? && NamesKnown(e) && IsIdentText(e.name) && Ready(list) && Ready(rest) && depth <= MAX_DEPTH
    requires e.args == [] ==> list == Cons(TOp(RParen), rest)
    requires e.args != [] ==>
      && list[0] != TOp(RParen)
      && ParseArguments([], list, depth)
         == if depth + ArgsNesting(e.args) <= MAX_DEPTH then Args(e.args, Cons(TOp(RParen), rest))
            else NoArgs(NestedTooDeeply)
    ensures ParsePostfix(Cons(TIdent(e.name), Cons(TOp(LParen), list)), depth)
         == Guarded(depth + ArgsNesting(e.args), PostfixTail(e, rest, depth))
  {
    assert e.args == [] ==> ArgsNesting(e.args) == 0;
    hide ParseArguments, PostfixTail, Terminated, Cons, ArgsNesting, Size, IsVariable, IsNumberText, ParseEnclosed;
    var paren := Cons(TOp(LParen), list);
    NamesAreNotWordOperators(e.name);
    ConsTail(TIdent(e.name), paren);
    ConsTail(TOp(LParen), list);
    ConsTail(TOp(RParen), rest);
    assert Cons(TIdent(e.name), paren)[2..] == paren[1..];
    assert ParseCall(e.name, list, depth) == Guarded(depth + ArgsNesting(e.args), Done(e, rest));
  }

  lemma {:induction false} LastArgumentOutcome(done: seq<Expr>, arg: Expr, ts: seq<Token>, rest: seq<Token>, depth: nat, n: nat)
    requires Ready(ts) && Ready(rest) && NamesKnown(arg) && rest[0] != TOp(Comma)
    requires forall i | 0 <= i < |done| :: NamesKnown(done[i])
    requires ParseExpression(ts, 0, depth) == Guarded(depth + 1 + n, Done(arg, rest))
    ensures ParseArguments(done, ts, depth)
         == if depth + 1 + n <= MAX_DEPTH then Args(done + [arg], rest) else NoArgs(NestedTooDeeply)
  {
    hide ParseExpression, Ready, Terminated;
  }

  lemma {:induction false} ArgumentOutcome(done: seq<Expr>, arg: Expr, ts: seq<Token>, tail: seq<Token>, depth: nat, n: nat)
    requires Ready(ts) && Ready(tail) && NamesKnown(arg)
    requires forall i | 0 <= i < |done| :: NamesKnown(done[i])
    requires ParseExpression(ts, 0, depth) == Guarded(depth + 1 + n, Done(arg, Cons(TOp(Comma), tail)))
    ensures ParseArguments(done, ts, depth)
         == if depth + 1 + n <= MAX_DEPTH then ParseArguments(done + [arg], tail, depth) else NoArgs(NestedTooDeeply)
  {
    hide ParseExpression, Ready, Terminated, Cons;
    ConsTail(TOp(Comma), tail);
  }

  lemma {:induction false} UnaryOutcome(e: Expr, ts: seq<Token>, rest: seq<Token>, depth: nat, n: nat)
    requires e.Unary? && NamesKnown(e) && Ready(ts) && Ready(rest)
    requires ParseUnary(ts, depth) == Guarded(depth + n, Done(e.arg, rest))
    ensures ParseUnary(Cons(UnaryToken(e.uop), ts), depth) == Guarded(depth + n, Done(e, rest))
  {
    hide ParsePostfix, Ready, Terminated, Cons;
    ConsTail(UnaryToken(e.uop), ts);
  }

  lemma {:induction false} PrimaryOutcome(e: Expr, ts: seq<Token>, rest: seq<Token>, depth: nat, n: nat)
    requires NamesKnown(e) && Ready(ts) && Stops(rest) && UnaryOf(ts[0]) == None
    requires ParsePostfix(ts, depth) == Guarded(depth + n, PostfixTail(e, rest, depth))
    ensures ParseUnary(ts, depth) == Guarded(depth + n, Done(e, rest))
  {
    hide ParsePostfix;
  }

  // ----- the parser reads each printed form back

  /** 1 for a tree printed in parentheses, 0 for one printed bare. */
  function Parens(e: Expr, level: nat): nat {
    if Binding(e) < level then 1 else 0
  }

  /** A separator or a closing token ends whatever precedes it. */
  lemma {:induction false} SeparatorEnds(p: Punct, ts: seq<Token>)
    requires p in {RParen, RBrack, Comma, Colon, Question} && Ready(ts)
    ensures p != Question ==> Ends(Cons(TOp(p), ts), 0)
    ensures StopsAt(Cons(TOp(p), ts), 1)
  {
  }

  lemma {:induction false} OperatorStops(op: BinOp, ts: seq<Token>)
    requires Ready(ts)
    ensures StopsAt(Cons(OperatorToken(op), ts), Precedence(op))
  {
    OperatorReadBack(op);
  }

  lemma {:induction false} StopsEnds(ts: seq<Token>, level: nat)
    requires StopsAt(ts, level)
    ensures Stops(ts) && Ends(ts, level + 1) && (level == 0 ==> Ends(ts, 0))
  {
  }

  lemma {:induction false} StopsOpen(ts: seq<Token>)
    requires Stops(ts)
    ensures ts[0] != TOp(LParen)
  {
  }

  lemma {:induction false} EndsStops(ts: seq<Token>, level: nat)
    requires Ends(ts, level)
    ensures Ready(ts) && Stops(ts) && StopsAt(ts, level)
  {
  }

  /** Where the operator loop and the ternary stop, a frame gives its operand back. */
  lemma {:induction false} TailEnds(e: Expr, rest: seq<Token>, level: nat, depth: nat)
    requires Ends(rest, level) && NamesKnown(e)
    ensures ParseTail(e, rest, level, depth) == Done(e, rest)
  {
    hide ParseExpression, Ready, Terminated, Cons, Size;
  }

  /** The printed forms, one step deep. */
  lemma {:induction false} ParensShape(e: Expr, rest: seq<Token>)
    requires Printable(e) && Ready(rest) && Binding(e) < 8
    ensures Print(e, 8, rest) == Cons(TOp(LParen), Print(e, 0, Cons(TOp(RParen), rest)))
    ensures Nesting(e, 8) == 1 + Nesting(e, 0)
    ensures !e.Unary? ==> Print(e, 7, rest) == Print(e, 8, rest) && Nesting(e, 7) == Nesting(e, 8)
  {
    hide Ready, Terminated, Cons, Writable, NamesKnown, OperatorToken, UnaryToken;
  }

  lemma {:induction false} UnaryShape(e: Expr, rest: seq<Token>)
    requires Printable(e) && Ready(rest)
    ensures e.Unary? ==>
      && Printable(e.arg)
      && Print(e, 7, rest) == Cons(UnaryToken(e.uop), Print(e.arg, 7, rest))
      && Nesting(e, 7) == Nesting(e.arg, 7)
    ensures !e.Unary? ==> Print(e, 7, rest) == Print(e, 8, rest) && Nesting(e, 7) == Nesting(e, 8)
  {
    hide Ready, Terminated, Cons, Writable, NamesKnown, OperatorToken, UnaryToken;
  }

  lemma {:induction false} MemberShape(e: Expr, rest: seq<Token>)
    requires e.Member? && Printable(e) && Ready(rest)
    ensures Printable(e.obj) && IsIdentText(e.name)
    ensures Print(e, 8, rest) == Print(e.obj, 8, Cons(TOp(Dot), Cons(TIdent(e.name), rest)))
    ensures Nesting(e, 8) == Nesting(e.obj, 8)
  {
    hide Ready, Terminated, Cons, Writable, NamesKnown, OperatorToken, UnaryToken, IsIdentText;
  }

  lemma {:induction false} IndexShape(e: Expr, rest: seq<Token>)
    requires e.Index? && Printable(e) && Ready(rest)
    ensures Printable(e.obj) && Printable(e.idx)
    ensures Print(e, 8, rest) == Print(e.obj, 8, Cons(TOp(LBrack), Print(e.idx, 0, Cons(TOp(RBrack), rest))))
    ensures Nesting(e, 8) == Max(Nesting(e.obj, 8), 1 + Nesting(e.idx, 0))
  {
    hide Ready, Terminated, Cons, Writable, NamesKnown, OperatorToken, UnaryToken;
  }

  lemma {:induction false} CallShape(e: Expr, rest: seq<Token>)
    requires e.Call? && Printable(e) && Ready(rest)
    ensures forall i | 0 <= i < |e.args| :: Printable(e.args[i])
    ensures IsBuiltin(e.name) && IsIdentText(e.name)
    ensures var list := PrintArgs(e.args, Cons(TOp(RParen), rest));
            Print(e, 8, rest) == Cons(TIdent(e.name), Cons(TOp(LParen), list))
    ensures Nesting(e, 8) == ArgsNesting(e.args)
    ensures e.args == [] ==> PrintArgs(e.args, Cons(TOp(RParen), rest)) == Cons(TOp(RParen), rest)
  {
    hide Ready, Terminated, Cons, Writable, NamesKnown, OperatorToken, UnaryToken, IsIdentText;
    NameIsIdentText(e.name);
  }

  lemma {:induction false} BinShape(e: Expr, rest: seq<Token>)
    requires e.Bin? && Printable(e) && Ready(rest)
    ensures var p := Precedence(e.bop);
      && Printable(e.l) && Printable(e.r)
      && Bare(e, rest) == Print(e.l, p, Cons(OperatorToken(e.bop), Print(e.r, p + 1, rest)))
      && BareNesting(e) == Max(Nesting(e.l, p), 1 + Nesting(e.r, p + 1))
  {
    hide Ready, Terminated, Cons, Writable, NamesKnown, OperatorToken, UnaryToken, Print, Nesting;
  }

  lemma {:induction false} CondShape(e: Expr, rest: seq<Token>)
    requires e.Cond? && Printable(e) && Ready(rest)
    ensures Printable(e.test) && Printable(e.a) && Printable(e.b)
    ensures Bare(e, rest)
         == Print(e.test, 1, Cons(TOp(Question), Print(e.a, 0, Cons(TOp(Colon), Print(e.b, 0, rest)))))
    ensures BareNesting(e) == Max(Nesting(e.test, 1), Max(1 + Nesting(e.a, 0), 1 + Nesting(e.b, 0)))
  {
    hide Ready, Terminated, Cons, Writable, NamesKnown, Print, Nesting;
  }

  lemma {:induction false} LeafShape(e: Expr, rest: seq<Token>)
    requires (e.Lit? || e.Var?) && Printable(e) && Ready(rest)
    ensures UnaryOf(Print(e, 8, rest)[0]) == None && Print(e, 8, rest)[0] != TOp(RParen)
  {
    hide Ready, Terminated, Cons, IsIdentText, IsNumberText;
    if e.Var? {
      NamesAreNotWordOperators(e.name);
    }
  }

  lemma {:induction false} BareShape(e: Expr, level: nat, rest: seq<Token>)
    requires Printable(e) && level <= 8 && Ready(rest)
    ensures Binding(e) < level ==> Print(e, level, rest)[0] == TOp(LParen)
    ensures level <= Binding(e) ==> Print(e, level, rest) == Bare(e, rest)
    ensures Binding(e) == 8 ==> Print(e, 8, rest) == Bare(e, rest)
    ensures Binding(e) == 7 ==> Print(e, 7, rest) == Bare(e, rest)
  {
    hide Ready, Terminated, Cons, Bare;
  }

  /** The first token of a primary or postfix form is not a unary operator. */
  lemma {:induction false} PostfixStart(e: Expr, rest: seq<Token>)
    requires Printable(e) && Ready(rest)
    ensures UnaryOf(Print(e, 8, rest)[0]) == None
    decreases e
  {
    hide Print, Bare, Printable, NamesKnown, Nesting, Ready, Terminated, Cons, IsIdentText, IsNumberText, PrintArgs;
    if Binding(e) < 8 {
      ParensShape(e, rest);
    } else if e.Member? {
      MemberShape(e, rest);
      PostfixStart(e.obj, Cons(TOp(Dot), Cons(TIdent(e.name), rest)));
    } else if e.Index? {
      IndexShape(e, rest);
      PostfixStart(e.obj, Cons(TOp(LBrack), Print(e.idx, 0, Cons(TOp(RBrack), rest))));
    } else if e.Call? {
      CallShape(e, rest);
      NamesAreNotWordOperators(e.name);
    } else {
      LeafShape(e, rest);
    }
  }

  /** No printed tree starts with a closing parenthesis. */
  lemma {:induction false} NeverCloses(e: Expr, level: nat, rest: seq<Token>)
    requires Printable(e) && level <= 8 && Ready(rest)
    ensures Print(e, level, rest)[0] != TOp(RParen)
    decreases e, level
  {
    hide Print, Bare, Printable, NamesKnown, Nesting, Ready, Terminated, Cons, IsIdentText, IsNumberText, PrintArgs,
         OperatorToken;
    BareShape(e, level, rest);
    if level <= Binding(e) {
      match e {
        case Lit(v) =>
          LeafShape(e, rest);
        case Var(name) =>
          LeafShape(e, rest);
        case Member(obj, name) =>
          MemberShape(e, rest);
          NeverCloses(obj, 8, Cons(TOp(Dot), Cons(TIdent(name), rest)));
        case Index(obj, idx) =>
          IndexShape(e, rest);
          NeverCloses(obj, 8, Cons(TOp(LBrack), Print(idx, 0, Cons(TOp(RBrack), rest))));
        case Call(name, _) =>
          CallShape(e, rest);
        case Unary(_, _) =>
          UnaryShape(e, rest);
        case Bin(op, l, r) =>
          BinShape(e, rest);
          NeverCloses(l, Precedence(op), Cons(OperatorToken(op), Print(r, Precedence(op) + 1, rest)));
        case Cond(test, a, b) =>
          CondShape(e, rest);
          NeverCloses(test, 1, Cons(TOp(Question), Print(a, 0, Cons(TOp(Colon), Print(b, 0, rest)))));
      }
    }
  }

  lemma {:induction false} ExpressionReadBack(e: Expr, level: nat, rest: seq<Token>, depth: nat)
    requires Printable(e) && level <= 7 && Ready(rest) && Ends(rest, level)
    ensures ParseExpression(Print(e, level, rest), level, depth)
         == Guarded(depth + 1 + Nesting(e, level), Done(e, rest))
    decreases e, Parens(e, level), 4
  {
    hide ParseFrame, ParseTail, Print, Bare, Nesting, BareNesting, Ends, Stops, StopsAt, Printable, NamesKnown, Ready, Terminated, Cons, Size;
    if depth < MAX_DEPTH {
      EndsStops(rest, level);
      FrameReadBack(e, level, level, rest, depth + 1);
      TailEnds(e, rest, level, depth + 1);
    }
  }

  lemma {:induction false} OperandTokens(e: Expr, level: nat, rest: seq<Token>)
    requires Printable(e) && level <= 7 && Ready(rest)
    ensures Binding(e) < level || 7 <= Binding(e) ==>
      Print(e, level, rest) == Print(e, 7, rest) && Nesting(e, level) == Nesting(e, 7)
    ensures level <= Binding(e) ==> Print(e, level, rest) == Bare(e, rest) && Nesting(e, level) == BareNesting(e)
  {
  }

  /** Inside one parse of an expression, a printed operand leaves the parser at its operator loop. */
  lemma {:induction false} FrameReadBack(e: Expr, level: nat, min: nat, rest: seq<Token>, depth: nat)
    requires Printable(e) && min <= level <= 7 && Ready(rest) && StopsAt(rest, level) && depth <= MAX_DEPTH
    ensures ParseFrame(Print(e, level, rest), min, depth)
         == Guarded(depth + Nesting(e, level), ParseTail(e, rest, min, depth))
    decreases e, Parens(e, level), 3
  {
    hide ParseFrame, ParseTail, ParseUnary, Print, Bare, Nesting, BareNesting, Ends, Stops, StopsAt, Printable, Ready, Terminated, Cons, Size;
    OperandTokens(e, level, rest);
    if Binding(e) < level || 7 <= Binding(e) {
      StopsEnds(rest, level);
      UnaryReadBack(e, rest, depth);
      OperandOutcome(e, Print(e, 7, rest), rest, min, depth, Nesting(e, 7));
    } else if e.Bin? {
      LevelsUp(rest, level, Binding(e));
      BinReadBack(e, min, rest, depth);
    } else {
      CondReadBack(e, rest, depth);
    }
  }

  lemma {:induction false} LevelsUp(rest: seq<Token>, level: nat, level': nat)
    requires StopsAt(rest, level) && level <= level'
    ensures 0 < level' ==> StopsAt(rest, level')
  {
  }

  lemma {:induction false} UnaryReadBack(e: Expr, rest: seq<Token>, depth: nat)
    requires Printable(e) && Ready(rest) && Stops(rest) && depth <= MAX_DEPTH
    ensures ParseUnary(Print(e, 7, rest), depth) == Guarded(depth + Nesting(e, 7), Done(e, rest))
    decreases e, Parens(e, 7), 2
  {
    hide ParseUnary, ParsePostfix, PostfixTail, Stops, UnaryOf, UnaryToken,
         Print, Bare, Nesting, BareNesting, Printable, NamesKnown, Size, Ready, Terminated, Cons;
    UnaryShape(e, rest);
    if e.Unary? {
      UnaryReadBack(e.arg, rest, depth);
      UnaryOutcome(e, Print(e.arg, 7, rest), rest, depth, Nesting(e.arg, 7));
    } else {
      StopsOpen(rest);
      PostfixReadBack(e, rest, depth);
      PostfixStart(e, rest);
      PrimaryOutcome(e, Print(e, 7, rest), rest, depth, Nesting(e, 7));
    }
  }

  lemma {:induction false} PostfixReadBack(e: Expr, rest: seq<Token>, depth: nat)
    requires Printable(e) && Ready(rest) && rest[0] != TOp(LParen) && depth <= MAX_DEPTH
    ensures ParsePostfix(Print(e, 8, rest), depth) == Guarded(depth + Nesting(e, 8), PostfixTail(e, rest, depth))
    decreases e, Parens(e, 8), 1
  {
    hide ParsePostfix, PostfixTail, ParseEnclosed, IsIdentText,
         Print, Bare, Nesting, BareNesting, Printable, NamesKnown, Size, Ready, Terminated, Cons;
    if Binding(e) < 8 {
      ParensShape(e, rest);
      EnclosedReadBack(e, RParen, rest, depth);
      ParensOutcome(e, Print(e, 0, Cons(TOp(RParen), rest)), rest, depth, Nesting(e, 0));
    } else if e.Lit? || e.Var? {
      LeafReadBack(e, rest, depth);
    } else if e.Member? {
      MemberReadBack(e, rest, depth);
    } else if e.Index? {
      IndexReadBack(e, rest, depth);
    } else {
      CallReadBack(e, rest, depth);
    }
  }

  lemma {:induction false} LeafReadBack(e: Expr, rest: seq<Token>, depth: nat)
    requires (e.Lit? || e.Var?) && Printable(e) && Ready(rest) && rest[0] != TOp(LParen)
    requires depth <= MAX_DEPTH
    ensures ParsePostfix(Print(e, 8, rest), depth) == Guarded(depth + Nesting(e, 8), PostfixTail(e, rest, depth))
  {
    hide Shortest, PostfixTail, NumberOf, IsNumberText, IsIdentText;
    if e.Var? {
      NamesAreNotWordOperators(e.name);
    }
  }

  lemma {:induction false} EnclosedReadBack(e: Expr, close: Punct, rest: seq<Token>, depth: nat)
    requires Printable(e) && Ready(rest) && (close == RParen || close == RBrack)
    ensures ParseEnclosed(Print(e, 0, Cons(TOp(close), rest)), close, depth)
         == Guarded(depth + 1 + Nesting(e, 0), Done(e, rest))
    decreases e, 0, 5
  {
    hide ParseExpression, ParseEnclosed, Print, Nesting, Ends, StopsAt, Printable, NamesKnown, Ready, Terminated, Cons, Size;
    SeparatorEnds(close, rest);
    ExpressionReadBack(e, 0, Cons(TOp(close), rest), depth);
    EnclosedOutcome(e, close, Print(e, 0, Cons(TOp(close), rest)), rest, depth, Nesting(e, 0));
  }

  lemma {:induction false} MemberReadBack(e: Expr, rest: seq<Token>, depth: nat)
    requires e.Member? && Printable(e) && Ready(rest) && depth <= MAX_DEPTH
    ensures ParsePostfix(Print(e, 8, rest), depth) == Guarded(depth + Nesting(e, 8), PostfixTail(e, rest, depth))
    decreases e, 0, 0
  {
    hide ParsePostfix, PostfixTail, IsIdentText,
         Print, Bare, Nesting, BareNesting, Printable, NamesKnown, Size, Ready, Terminated, Cons;
    MemberShape(e, rest);
    var tail := Cons(TOp(Dot), Cons(TIdent(e.name), rest));
    PostfixReadBack(e.obj, tail, depth);
    MemberOutcome(e, Print(e.obj, 8, tail), rest, depth, Nesting(e.obj, 8));
  }

  lemma {:induction false} IndexReadBack(e: Expr, rest: seq<Token>, depth: nat)
    requires e.Index? && Printable(e) && Ready(rest) && depth <= MAX_DEPTH
    ensures ParsePostfix(Print(e, 8, rest), depth) == Guarded(depth + Nesting(e, 8), PostfixTail(e, rest, depth))
    decreases e, 0, 0
  {
    hide ParsePostfix, PostfixTail, ParseEnclosed,
         Print, Bare, Nesting, BareNesting, Printable, NamesKnown, Size, Ready, Terminated, Cons;
    IndexShape(e, rest);
    var inner := Print(e.idx, 0, Cons(TOp(RBrack), rest));
    EnclosedReadBack(e.idx, RBrack, rest, depth);
    PostfixReadBack(e.obj, Cons(TOp(LBrack), inner), depth);
    IndexOutcome(e, Print(e.obj, 8, Cons(TOp(LBrack), inner)), inner, rest, depth,
                 Nesting(e.obj, 8), Nesting(e.idx, 0));
  }

  lemma {:induction false} CallReadBack(e: Expr, rest: seq<Token>, depth: nat)
    requires e.Call? && Printable(e) && Ready(rest) && depth <= MAX_DEPTH
    ensures ParsePostfix(Print(e, 8, rest), depth) == Guarded(depth + Nesting(e, 8), PostfixTail(e, rest, depth))
    decreases e, 0, 0
  {
    hide ParsePostfix, PostfixTail, ParseArguments, PrintArgs, ArgsNesting, IsIdentText,
         Print, Bare, Nesting, BareNesting, Printable, NamesKnown, Size, Ready, Terminated, Cons;
    CallShape(e, rest);
    if e.args != [] {
      ArgumentsReadBack([], e.args, rest, depth);
      assert [] + e.args == e.args;
    }
    CallOutcome(e, PrintArgs(e.args, Cons(TOp(RParen), rest)), rest, depth);
  }

  lemma {:induction false} ArgumentsReadBack(done: seq<Expr>, args: seq<Expr>, rest: seq<Token>, depth: nat)
    requires args != [] && Ready(rest)
    requires forall i | 0 <= i < |done| :: NamesKnown(done[i])
    requires forall i | 0 <= i < |args| :: Printable(args[i])
    ensures var ts := PrintArgs(args, Cons(TOp(RParen), rest));
      && ts[0] != TOp(RParen)
      && ParseArguments(done, ts, depth)
         == if depth + ArgsNesting(args) <= MAX_DEPTH then Args(done + args, Cons(TOp(RParen), rest))
            else NoArgs(NestedTooDeeply)
    decreases args
  {
    hide ParseExpression, ParseArguments, Print, Bare, Nesting, BareNesting, Ends, StopsAt, Printable, NamesKnown, Ready, Terminated, Cons, Size;
    var close := Cons(TOp(RParen), rest);
    var arg, n := args[0], Nesting(args[0], 0);
    if |args| == 1 {
      SeparatorEnds(RParen, rest);
      NeverCloses(arg, 0, close);
      ExpressionReadBack(arg, 0, close, depth);
      LastArgumentOutcome(done, arg, Print(arg, 0, close), close, depth, n);
      assert args == [arg];
    } else {
      var tail := PrintArgs(args[1..], close);
      ArgumentsReadBack(done + [arg], args[1..], rest, depth);
      SeparatorEnds(Comma, tail);
      NeverCloses(arg, 0, Cons(TOp(Comma), tail));
      ExpressionReadBack(arg, 0, Cons(TOp(Comma), tail), depth);
      ArgumentOutcome(done, arg, Print(arg, 0, Cons(TOp(Comma), tail)), tail, depth, n);
      assert done + [arg] + args[1..] == done + args;
    }
  }

  lemma {:induction false} BinReadBack(e: Expr, min: nat, rest: seq<Token>, depth: nat)
    requires e.Bin? && Printable(e) && min <= Binding(e) && depth <= MAX_DEPTH
    requires Ready(rest) && StopsAt(rest, Binding(e))
    ensures ParseFrame(Bare(e, rest), min, depth) == Guarded(depth + BareNesting(e), ParseTail(e, rest, min, depth))
    decreases e, 0, 0
  {
    hide ParseFrame, ParseTail, ParseExpression, OperatorToken, Ends, StopsAt, Stops,
         Print, Bare, Nesting, BareNesting, Printable, NamesKnown, Size, Ready, Terminated, Cons;
    BinShape(e, rest);
    var Bin(op, l, r) := e;
    var p := Precedence(op);
    var right := Print(r, p + 1, rest);
    StopsEnds(rest, p);
    ExpressionReadBack(r, p + 1, rest, depth);
    OperatorStops(op, right);
    FrameReadBack(l, p, min, Cons(OperatorToken(op), right), depth);
    BinOutcome(op, l, r, Bare(e, rest), right, rest, min, depth, Nesting(l, p), Nesting(r, p + 1));
  }

  lemma {:induction false} BranchesReadBack(e: Expr, rest: seq<Token>, depth: nat)
    requires e.Cond? && Printable(e) && Printable(e.a) && Printable(e.b)
    requires Ready(rest) && Ends(rest, 0) && depth <= MAX_DEPTH
    ensures ParseTernary(e.test, Print(e.a, 0, Cons(TOp(Colon), Print(e.b, 0, rest))), depth)
         == Guarded(depth + Max(1 + Nesting(e.a, 0), 1 + Nesting(e.b, 0)), Done(e, rest))
    decreases e, 0, 0
  {
    hide ParseTernary, ParseExpression, Ends, StopsAt, Stops,
         Print, Bare, Nesting, BareNesting, Printable, NamesKnown, Size, Ready, Terminated, Cons;
    CondShape(e, rest);
    var last := Print(e.b, 0, rest);
    ExpressionReadBack(e.b, 0, rest, depth);
    SeparatorEnds(Colon, last);
    ExpressionReadBack(e.a, 0, Cons(TOp(Colon), last), depth);
    TernaryOutcome(e.test, e.a, e.b, Print(e.a, 0, Cons(TOp(Colon), last)), last, rest, depth,
                   Nesting(e.a, 0), Nesting(e.b, 0));
  }

  lemma {:induction false} CondReadBack(e: Expr, rest: seq<Token>, depth: nat)
    requires e.Cond? && Printable(e) && Ready(rest) && StopsAt(rest, 0) && depth <= MAX_DEPTH
    ensures ParseFrame(Bare(e, rest), 0, depth) == Guarded(depth + BareNesting(e), ParseTail(e, rest, 0, depth))
    decreases e, 0, 1
  {
    hide ParseFrame, ParseTail, ParseTernary, ParseExpression, Ends, StopsAt, Stops,
         Print, Bare, Nesting, BareNesting, Printable, NamesKnown, Size, Ready, Terminated, Cons;
    CondShape(e, rest);
    StopsEnds(rest, 0);
    BranchesReadBack(e, rest, depth);
    var branches := Print(e.a, 0, Cons(TOp(Colon), Print(e.b, 0, rest)));
    SeparatorEnds(Question, branches);
    FrameReadBack(e.test, 1, 0, Cons(TOp(Question), branches), depth);
    CondOutcome(e, Bare(e, rest), branches, rest, depth, Nesting(e.test, 1),
                Max(1 + Nesting(e.a, 0), 1 + Nesting(e.b, 0)));
  }

  // ----- the round trip

  /** The printed tokens of a tree, without the end of input. */
  ghost function Tokens(e: Expr): (ts: seq<Token>)
    requires Printable(e)
    ensures ts != [] && ts + [TEof] == Print(e, 0, [TEof])
    ensures forall i | 0 <= i < |ts| :: Writable(ts[i])
  {
    var ts := Print(e, 0, [TEof]);
    ts[..|ts| - 1]
  }

  /** Parsing the printed tokens gives back the tree, exactly when it nests within the limit. */
  lemma {:induction false} ParseOfPrint(e: Expr)
    requires Printable(e)
    ensures ParseTokens(Tokens(e) + [TEof])
         == if 1 + Nesting(e, 0) <= MAX_DEPTH then Ok(e) else Err(NestedTooDeeply)
  {
    hide ParseExpression, Print, Bare, Nesting, BareNesting, Printable;
    ExpressionReadBack(e, 0, [TEof], 0);
  }

  lemma {:induction false} TokenTextStart(t: Token)
    requires Writable(t)
    ensures TokenText(t) != "" && !IsTrimmed(TokenText(t)[0])
  {
    if t.TOp? {
      PunctTextStart(t.punct);
    }
  }

  lemma {:induction false} LayoutIsNotBlank(tokens: seq<Token>, gaps: seq<string>)
    requires tokens != [] && Writable(tokens[0]) && |gaps| == |tokens| + 1
    ensures !IsBlank(Layout(tokens, gaps))
  {
    TokenTextStart(tokens[0]);
    var text := Layout(tokens, gaps);
    assert text[|gaps[0]|] == TokenText(tokens[0])[0];
  }

  /** Compiling the printed tree in any spacing that keeps its tokens apart gives back the tree, exactly within the two limits. */
  lemma {:induction false} CompileOfPrint(e: Expr, gaps: seq<string>)
    requires Printable(e) && Spacing(gaps, Tokens(e))
    ensures var text := Layout(Tokens(e), gaps);
      Compile(text) ==
        if |text| > MAX_EXPRESSION_LENGTH then Err(SourceTooLong)
        else if 1 + Nesting(e, 0) > MAX_DEPTH then Err(NestedTooDeeply)
        else Ok(e)
  {
    LayoutIsNotBlank(Tokens(e), gaps);
    LexOfLayout(Tokens(e), gaps);
    ParseOfPrint(e);
  }

  lemma {:induction false} PrintFits(e: Expr, gaps: seq<string>)
    requires Printable(e) && Spacing(gaps, Tokens(e))
    ensures Compile(Layout(Tokens(e), gaps)) == Ok(e) <==>
            1 + Nesting(e, 0) <= MAX_DEPTH && |Layout(Tokens(e), gaps)| <= MAX_EXPRESSION_LENGTH
  {
    hide *;
    CompileOfPrint(e, gaps);
  }

  /** A tree has a print that compiles to it exactly when it nests within the limit and its compact print is short enough. */
  lemma {:induction false} CompactDecides(e: Expr)
    requires Printable(e)
    ensures var ts := Tokens(e);
      (exists gaps :: Spacing(gaps, ts) && Compile(Layout(ts, gaps)) == Ok(e)) <==>
      (1 + Nesting(e, 0) <= MAX_DEPTH && |Layout(ts, CompactGaps(ts))| <= MAX_EXPRESSION_LENGTH)
  {
    var ts := Tokens(e);
    var compact := CompactGaps(ts);
    assert Spacing(compact, ts);
    hide *;
    PrintFits(e, compact);
    if gaps :| Spacing(gaps, ts) && Compile(Layout(ts, gaps)) == Ok(e) {
      PrintFits(e, gaps);
      CompactIsShortest(ts, gaps);
    }
  }
}
