/**
 Evaluation: the meaning of an expression without a budget, the number of nodes an evaluation visits, and
 the evaluator itself, which counts its steps and stops beyond the budget. The evaluator agrees with the
 meaning exactly when the visits fit the budget, and for a compiled source they always do.
 */
module ExprEval {
  import opened Outcome
  import opened ExprSyntax
  import opened ExprPrinter
  import opened ExprValues
  import RegexSafety

  datatype Context = Context(input: Value, output: Value, expected: Value, metadata: Value)

  function Bound(ctx: Context, name: string): Value {
    if name == "input" then ctx.input
    else if name == "output" then ctx.output
    else if name == "expected" then ctx.expected
    else if name == "metadata" then ctx.metadata
    else VNull
  }

  datatype EvaluatedArgs = Values(values: seq<Value>) | NoValues(error: EvalError)

  /** The meaning of an expression: operands left to right, the first error wins, `and` and `or` and the
      conditional evaluate only what they need. */
  function Eval(host: Host, ctx: Context, e: Expr): Evaluated {
    match e
    case Lit(v) => Ok(v)
    case Var(name) => Ok(Bound(ctx, name))
    case Member(obj, name) =>
      var o := Eval(host, ctx, obj);
      if o.Err? then o else ReadMember(host, o.value, name)
    case Index(obj, idx) =>
      var o := Eval(host, ctx, obj);
      if o.Err? then o else
      var i := Eval(host, ctx, idx);
      if i.Err? then i else ReadMember(host, o.value, StrOf(host, i.value))
    case Unary(op, arg) =>
      var v := Eval(host, ctx, arg);
      if v.Err? then v
      else if op.Not? then Ok(VBool(!Truthy(v.value)))
      else
        var n := NumOf(host, v.value);
        if n.None? then Err(NegNeedsNumber) else Ok(VNum(-n.value))
    case Bin(op, l, r) =>
      var a := Eval(host, ctx, l);
      if a.Err? then a
      else if op.And? && !Truthy(a.value) then Ok(VBool(false))
      else if op.Or? && Truthy(a.value) then Ok(VBool(true))
      else
        var b := Eval(host, ctx, r);
        if b.Err? then b
        else if op.And? || op.Or? then Ok(VBool(Truthy(b.value)))
        else if IsComparison(op) then Ok(VBool(Compare(host, op, a.value, b.value)))
        else Arithmetic(host, op, a.value, b.value)
    case Cond(test, a, b) =>
      var t := Eval(host, ctx, test);
      if t.Err? then t else if Truthy(t.value) then Eval(host, ctx, a) else Eval(host, ctx, b)
    case Call(name, args) =>
      if |args| != Arity(name) then Err(WrongArity(name, |args|))
      else match EvalArgs(host, ctx, args)
        case NoValues(error) => Err(error)
        case Values(values) => CallBuiltin(host, name, values)
  }

  function EvalArgs(host: Host, ctx: Context, args: seq<Expr>): (r: EvaluatedArgs)
    ensures r.Values? ==> |r.values| == |args|
  {
    if args == [] then Values([])
    else match Eval(host, ctx, args[0])
      case Err(error) => NoValues(error)
      case Ok(v) =>
        match EvalArgs(host, ctx, args[1..])
        case NoValues(error) => NoValues(error)
        case Values(rest) => Values([v] + rest)
  }

  /** The number of nodes an evaluation enters. */
  function Visits(host: Host, ctx: Context, e: Expr): (n: nat)
    ensures 1 <= n
  {
    match e
    case Lit(_) => 1
    case Var(_) => 1
    case Member(obj, _) => 1 + Visits(host, ctx, obj)
    case Index(obj, idx) =>
      1 + Visits(host, ctx, obj) + if Eval(host, ctx, obj).Ok? then Visits(host, ctx, idx) else 0
    case Unary(_, arg) => 1 + Visits(host, ctx, arg)
    case Bin(op, l, r) =>
      1 + Visits(host, ctx, l) + if NeedsRight(op, Eval(host, ctx, l)) then Visits(host, ctx, r) else 0
    case Cond(test, a, b) =>
      var t := Eval(host, ctx, test);
      1 + Visits(host, ctx, test)
        + if t.Err? then 0 else if Truthy(t.value) then Visits(host, ctx, a) else Visits(host, ctx, b)
    case Call(name, args) => 1 + if |args| != Arity(name) then 0 else VisitsArgs(host, ctx, args)
  }

  /** Whether a binary operator evaluates its right operand. */
  predicate NeedsRight(op: BinOp, left: Evaluated) {
    left.Ok? && !(op.And? && !Truthy(left.value)) && !(op.Or? && Truthy(left.value))
  }

  function VisitsArgs(host: Host, ctx: Context, args: seq<Expr>): nat {
    if args == [] then 0
    else Visits(host, ctx, args[0]) + if Eval(host, ctx, args[0]).Ok? then VisitsArgs(host, ctx, args[1..]) else 0
  }

  /** An evaluation enters each node at most once. */
  lemma {:induction false} VisitsAtMostSize(host: Host, ctx: Context, e: Expr)
    ensures Visits(host, ctx, e) <= Size(e)
  {
    hide Eval, Truthy, Arity;
    match e {
      case Lit(_) =>
      case Var(_) =>
      case Member(obj, _) => VisitsAtMostSize(host, ctx, obj);
      case Index(obj, idx) =>
        VisitsAtMostSize(host, ctx, obj);
        VisitsAtMostSize(host, ctx, idx);
      case Unary(_, arg) => VisitsAtMostSize(host, ctx, arg);
      case Bin(_, l, r) =>
        VisitsAtMostSize(host, ctx, l);
        VisitsAtMostSize(host, ctx, r);
      case Cond(test, a, b) =>
        VisitsAtMostSize(host, ctx, test);
        VisitsAtMostSize(host, ctx, a);
        VisitsAtMostSize(host, ctx, b);
      case Call(_, args) =>
        VisitsArgsAtMostSizes(host, ctx, args);
    }
  }

  lemma {:induction false} VisitsArgsAtMostSizes(host: Host, ctx: Context, args: seq<Expr>)
    ensures VisitsArgs(host, ctx, args) <= Sizes(args)
  {
    if args != [] {
      VisitsAtMostSize(host, ctx, args[0]);
      VisitsArgsAtMostSizes(host, ctx, args[1..]);
    }
  }

  // ----- the evaluator and its step budget

  class Steps {
    var n: nat

    constructor ()
      ensures n == 0
    {
      n := 0;
    }
  }

  /** What an evaluation that starts after `spent` steps gives, and how many steps it leaves spent. */
  ghost predicate Budgeted(r: Evaluated, now: nat, spent: nat, visits: nat, meaning: Evaluated) {
    if spent + visits <= 20000 then r == meaning && now == spent + visits
    else r == Err(OverBudget)
  }

  method EvalNode(host: Host, ctx: Context, e: Expr, steps: Steps) returns (r: Evaluated)
    modifies steps
    ensures Budgeted(r, steps.n, old(steps.n), Visits(host, ctx, e), Eval(host, ctx, e))
    decreases e, 1
  {
    hide Truthy, NumOf, StrOf, ReadMember, CallBuiltin, Compare, Arithmetic, Arity;
    steps.n := steps.n + 1;
    if steps.n > MAX_EVAL_STEPS {
      return Err(OverBudget);
    }
    match e {
      case Lit(v) =>
        return Ok(v);
      case Var(name) =>
        return Ok(Bound(ctx, name));
      case Member(obj, name) =>
        r := EvalNode(host, ctx, obj, steps);
        if r.Ok? {
          r := ReadMember(host, r.value, name);
        }
      case Index(obj, idx) =>
        var o := EvalNode(host, ctx, obj, steps);
        if o.Err? {
          return o;
        }
        r := EvalNode(host, ctx, idx, steps);
        if r.Ok? {
          r := ReadMember(host, o.value, StrOf(host, r.value));
        }
      case Unary(op, arg) =>
        r := EvalNode(host, ctx, arg, steps);
        if r.Ok? {
          if op.Not? {
            return Ok(VBool(!Truthy(r.value)));
          }
          var n := NumOf(host, r.value);
          r := if n.None? then Err(NegNeedsNumber) else Ok(VNum(-n.value));
        }
      case Bin(_, _, _) =>
        r := EvalBinary(host, ctx, e, steps);
      case Cond(test, a, b) =>
        var t := EvalNode(host, ctx, test, steps);
        if t.Err? {
          return t;
        }
        if Truthy(t.value) {
          r := EvalNode(host, ctx, a, steps);
        } else {
          r := EvalNode(host, ctx, b, steps);
        }
      case Call(name, args) =>
        if |args| != Arity(name) {
          return Err(WrongArity(name, |args|));
        }
        var values := EvalArguments(host, ctx, args, steps);
        match values {
          case NoValues(error) => r := Err(error);
          case Values(vs) => r := CallBuiltin(host, name, vs);
        }
    }
  }

  /** The `bin` case, after its own step was counted. */
  method EvalBinary(host: Host, ctx: Context, e: Expr, steps: Steps) returns (r: Evaluated)
    requires e.Bin?
    modifies steps
    ensures Budgeted(r, steps.n, old(steps.n), Visits(host, ctx, e) - 1, Eval(host, ctx, e))
    decreases e, 0
  {
    hide Truthy, Compare, Arithmetic;
    var Bin(op, lhs, rhs) := e;
    var l := EvalNode(host, ctx, lhs, steps);
    if l.Err? {
      return l;
    }
    if op.And? && !Truthy(l.value) {
      return Ok(VBool(false));
    }
    if op.Or? && Truthy(l.value) {
      return Ok(VBool(true));
    }
    r := EvalNode(host, ctx, rhs, steps);
    if r.Ok? {
      if op.And? || op.Or? {
        r := Ok(VBool(Truthy(r.value)));
      } else if IsComparison(op) {
        r := Ok(VBool(Compare(host, op, l.value, r.value)));
      } else {
        r := Arithmetic(host, op, l.value, r.value);
      }
    }
  }

  /** The arguments of a call, in order. */
  method EvalArguments(host: Host, ctx: Context, args: seq<Expr>, steps: Steps) returns (r: EvaluatedArgs)
    requires steps.n <= MAX_EVAL_STEPS
    modifies steps
    ensures if old(steps.n) + VisitsArgs(host, ctx, args) <= 20000
            then r == EvalArgs(host, ctx, args) && steps.n == old(steps.n) + VisitsArgs(host, ctx, args)
            else r == NoValues(OverBudget)
    decreases args
  {
    if args == [] {
      return Values([]);
    }
    var v := EvalNode(host, ctx, args[0], steps);
    if v.Err? {
      return NoValues(v.error);
    }
    r := EvalArguments(host, ctx, args[1..], steps);
    if r.Values? {
      r := Values([v.value] + r.values);
    }
  }

  datatype RunError = DoesNotCompile(syntax: SyntaxError) | Fails(error: EvalError) | NotAScore(value: Value)

  /** A score, and the value it was made from. */
  datatype Scored = Scored(score: real, value: Value)

  /** The score of an evaluation: a boolean counts as one or zero, a number must be between them. */
  function ScoreOf(v: Value): (r: Result<Scored, RunError>)
    ensures r.Ok? ==> 0.0 <= r.value.score <= 1.0 && r.value.value == v
    ensures r.Ok? <==> v.VBool? || (v.VNum? && 0.0 <= v.n <= 1.0)
  {
    match v
    case VBool(b) => Ok(Scored(if b then 1.0 else 0.0, v))
    case VNum(n) => if 0.0 <= n <= 1.0 then Ok(Scored(n, v)) else Err(NotAScore(v))
    case _ => Err(NotAScore(v))
  }

  /** The budget-free meaning of a source: its syntax error, its evaluation error or its value. */
  function Meaning(host: Host, ctx: Context, source: string): Result<Value, RunError> {
    match Compile(source)
    case Err(error) => Err(DoesNotCompile(error))
    case Ok(ast) =>
      match Eval(host, ctx, ast)
      case Err(error) => Err(Fails(error))
      case Ok(v) => Ok(v)
  }

  /** The step budget never shows on a compiled source: its evaluation is the budget-free meaning. */
  method EvaluateSource(host: Host, ctx: Context, source: string) returns (r: Result<Value, RunError>)
    ensures r == Meaning(host, ctx, source)
  {
    var ast := CompileExpression(source);
    if ast.Err? {
      return Err(DoesNotCompile(ast.error));
    }
    VisitsAtMostSize(host, ctx, ast.value);
    var steps := new Steps();
    var v := EvalNode(host, ctx, ast.value, steps);
    r := if v.Ok? then Ok(v.value) else Err(Fails(v.error));
  }

  method RunExpression(host: Host, ctx: Context, source: string) returns (r: Result<Scored, RunError>)
    ensures var v := Meaning(host, ctx, source); r == if v.Err? then Err(v.error) else ScoreOf(v.value)
    ensures r.Ok? ==> 0.0 <= r.value.score <= 1.0 && Meaning(host, ctx, source) == Ok(r.value.value)
  {
    var v := EvaluateSource(host, ctx, source);
    r := if v.Err? then Err(v.error) else ScoreOf(v.value);
  }

  // ----- laws of the meaning

  /** The budget cannot be reached by a compiled source. */
  lemma {:induction false} CompiledFitsBudget(host: Host, ctx: Context, source: string, e: Expr)
    requires Compile(source) == Ok(e)
    ensures Visits(host, ctx, e) <= Size(e) <= |source| <= 4000 < 20000
  {
    VisitsAtMostSize(host, ctx, e);
  }

  /** Negating a conjunction is the disjunction of the negations, errors and skipped operands included. */
  lemma {:induction false} DeMorgan(host: Host, ctx: Context, l: Expr, r: Expr)
    ensures Eval(host, ctx, Unary(Not, Bin(And, l, r)))
         == Eval(host, ctx, Bin(Or, Unary(Not, l), Unary(Not, r)))
    ensures Eval(host, ctx, Unary(Not, Bin(Or, l, r)))
         == Eval(host, ctx, Bin(And, Unary(Not, l), Unary(Not, r)))
  {
    var a, b := Eval(host, ctx, l), Eval(host, ctx, r);
    assert Eval(host, ctx, Unary(Not, l)) == if a.Err? then a else Ok(VBool(!Truthy(a.value)));
    assert Eval(host, ctx, Unary(Not, r)) == if b.Err? then b else Ok(VBool(!Truthy(b.value)));
  }

  lemma {:induction false} EvalTwoArgs(host: Host, ctx: Context, a: Expr, b: Expr, va: Value, vb: Value)
    requires Eval(host, ctx, a) == Ok(va) && Eval(host, ctx, b) == Ok(vb)
    ensures EvalArgs(host, ctx, [a, b]) == Values([va, vb])
  {
    hide Eval;
    var args := [a, b];
    assert args[1..] == [b] && args[1..][1..] == [];
    assert EvalArgs(host, ctx, args[1..]) == Values([vb] + []);
  }

  /** A guarded access reads as intended: when the key is missing the right operand is not evaluated, so it
      cannot fail, and when it is there the access gives its value. */
  lemma {:induction false} GuardedAccess(host: Host, ctx: Context, obj: Expr, name: string, rest: Expr, v: Value)
    requires Eval(host, ctx, obj) == Ok(v) && !IsForbidden(name)
    ensures var guard := Call("has", [obj, Lit(VStr(name))]);
      var present := v.VObj? && Lookup(v.entries, name).Some?;
      && Eval(host, ctx, guard) == Ok(VBool(present))
      && (!present ==> Eval(host, ctx, Bin(And, guard, rest)) == Ok(VBool(false)))
      && (present ==> Eval(host, ctx, Member(obj, name)) == Ok(Lookup(v.entries, name).value))
  {
    EvalTwoArgs(host, ctx, obj, Lit(VStr(name)), v, VStr(name));
    hide EvalArgs;
  }

  /** `matches` never runs a pattern of the domain in which a repeated group holds a repetition. */
  lemma {:induction false} MatchesRejectsNested(host: Host, ctx: Context, subject: Expr, branches: seq<RegexSafety.Branch>)
    requires RegexSafety.ValidBranches(branches) && RegexSafety.NestedIn(branches)
    ensures var call := Call("matches", [subject, Lit(VStr(RegexSafety.Text(branches)))]);
      Eval(host, ctx, call).Err?
  {
    var pattern := RegexSafety.Text(branches);
    RegexSafety.GuardRejectsNested(branches);
    var s := Eval(host, ctx, subject);
    if s.Ok? {
      EvalTwoArgs(host, ctx, subject, Lit(VStr(pattern)), s.value, VStr(pattern));
    }
  }
}
