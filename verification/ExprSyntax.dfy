/**
 The vocabulary of the evaluator expression language: tokens, syntax trees, values and errors.

 JavaScript numbers are modelled as reals and JavaScript strings as Dafny strings. Source positions,
 which the program carries only to word its error messages, are not modelled.
 */
module ExprSyntax {

  const MAX_EXPRESSION_LENGTH := 4000
  const MAX_EVAL_STEPS := 20000
  const MAX_DEPTH := 64

  /** The operator tokens, in the order in which the tokenizer tries them. */
  datatype Punct =
    | EqEq | NotEq | LtEq | GtEq | AndAnd | OrOr | LessThan | GreaterThan
    | Plus | Minus | Star | Slash | Percent
    | LParen | RParen | LBrack | RBrack | Comma | Dot | Question | Colon | Bang

  function PunctText(p: Punct): (s: string)
    ensures 1 <= |s|
  {
    match p
    case EqEq => "=="
    case NotEq => "!="
    case LtEq => "<="
    case GtEq => ">="
    case AndAnd => "&&"
    case OrOr => "||"
    case LessThan => "<"
    case GreaterThan => ">"
    case Plus => "+"
    case Minus => "-"
    case Star => "*"
    case Slash => "/"
    case Percent => "%"
    case LParen => "("
    case RParen => ")"
    case LBrack => "["
    case RBrack => "]"
    case Comma => ","
    case Dot => "."
    case Question => "?"
    case Colon => ":"
    case Bang => "!"
  }

  datatype Token =
    | TNum(text: string)
    | TStr(content: string)
    | TIdent(name: string)
    | TOp(punct: Punct)
    | TEof
  {
    /** The `value` field of a token, which is all that `expect` looks at. */
    function Value(): string {
      match this
      case TNum(text) => text
      case TStr(content) => content
      case TIdent(name) => name
      case TOp(p) => PunctText(p)
      case TEof => ""
    }
  }

  datatype SyntaxError =
    | EmptySource
    | SourceTooLong
    | UnterminatedString
    | UnexpectedCharacter(c: char)
    | UnexpectedToken(token: Token)
    | Expected(punct: Punct)
    | NotAPropertyName
    | NestedTooDeeply
    | UnknownFunction(name: string)
    | UnknownName(name: string)

  /** JSON values. An object is its list of entries, in insertion order. */
  datatype Value =
    | VNull
    | VBool(b: bool)
    | VNum(n: real)
    | VStr(s: string)
    | VArr(elems: seq<Value>)
    | VObj(entries: seq<Entry>)

  datatype Entry = Entry(key: string, value: Value)

  datatype UnaryOp = Neg | Not

  /** `||` and `or` build the same node, and so do `&&` and `and`. */
  datatype BinOp = Or | And | Eq | Ne | Lt | Le | Gt | Ge | Add | Sub | Mul | Div | Mod

  datatype Expr =
    | Lit(v: Value)
    | Var(name: string)
    | Member(obj: Expr, name: string)
    | Index(obj: Expr, idx: Expr)
    | Call(name: string, args: seq<Expr>)
    | Unary(uop: UnaryOp, arg: Expr)
    | Bin(bop: BinOp, l: Expr, r: Expr)
    | Cond(test: Expr, a: Expr, b: Expr)

  function Precedence(op: BinOp): (p: nat)
    ensures 1 <= p <= 6
  {
    match op
    case Or => 1
    case And => 2
    case Eq | Ne => 3
    case Lt | Le | Gt | Ge => 4
    case Add | Sub => 5
    case Mul | Div | Mod => 6
  }

  predicate IsVariable(name: string) {
    || name == "input" || name == "output" || name == "expected" || name == "metadata"
  }

  /** The builtins of one argument. */
  predicate IsBuiltin1(name: string) {
    || name == "len" || name == "lower" || name == "upper" || name == "trim" || name == "words"
    || name == "jsonValid" || name == "jsonParse" || name == "num" || name == "abs" || name == "round"
    || name == "isEmpty"
  }

  /** The builtins of two arguments. */
  predicate IsBuiltin2(name: string) {
    || name == "contains" || name == "startsWith" || name == "endsWith" || name == "matches"
    || name == "exactMatch" || name == "jsonPath" || name == "has" || name == "min" || name == "max"
    || name == "coalesce"
  }

  predicate IsBuiltin(name: string) {
    IsBuiltin1(name) || IsBuiltin2(name)
  }

  /** Identifiers the parser gives a meaning of their own before it looks for a variable or a call. */
  predicate IsWordOperator(name: string) {
    || name == "not" || name == "true" || name == "false" || name == "null"
  }

  lemma {:induction false} NamesAreNotWordOperators(name: string)
    requires IsVariable(name) || IsBuiltin(name)
    ensures !IsWordOperator(name) && name != "and" && name != "or"
  {
  }

  /** The number of nodes of a tree. */
  function Size(e: Expr): (n: nat)
    ensures 1 <= n
  {
    match e
    case Lit(_) => 1
    case Var(_) => 1
    case Member(obj, _) => 1 + Size(obj)
    case Index(obj, idx) => 1 + Size(obj) + Size(idx)
    case Call(_, args) => 1 + Sizes(args)
    case Unary(_, arg) => 1 + Size(arg)
    case Bin(_, l, r) => 1 + Size(l) + Size(r)
    case Cond(test, a, b) => 1 + Size(test) + Size(a) + Size(b)
  }

  function Sizes(es: seq<Expr>): nat {
    if es == [] then 0 else Size(es[0]) + Sizes(es[1..])
  }

  lemma {:induction false} SizesAppend(es: seq<Expr>, e: Expr)
    ensures Sizes(es + [e]) == Sizes(es) + Size(e)
  {
    if es == [] {
      assert es + [e] == [e];
    } else {
      SizesAppend(es[1..], e);
      assert (es + [e])[1..] == es[1..] + [e];
    }
  }

  /** Every name a tree mentions is one of the four variables or a listed builtin. */
  predicate NamesKnown(e: Expr) {
    match e
    case Lit(_) => true
    case Var(name) => IsVariable(name)
    case Member(obj, _) => NamesKnown(obj)
    case Index(obj, idx) => NamesKnown(obj) && NamesKnown(idx)
    case Call(name, args) => IsBuiltin(name) && forall i | 0 <= i < |args| :: NamesKnown(args[i])
    case Unary(_, arg) => NamesKnown(arg)
    case Bin(_, l, r) => NamesKnown(l) && NamesKnown(r)
    case Cond(test, a, b) => NamesKnown(test) && NamesKnown(a) && NamesKnown(b)
  }
}
