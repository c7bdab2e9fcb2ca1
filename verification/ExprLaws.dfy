/**
 What each construct of the language computes, said of the meaning of expressions and not of the functions that
 define it: names and literals, members, arithmetic, orderings, equality, conditions, and every builtin.
 */
module ExprLaws {
  import opened Outcome
  import opened ExprSyntax
  import opened ExprValues
  import opened ExprEval
  import ExprVocabulary
  import JsText
  import RegexSafety

  // ----- how values read as numbers, as texts and as truth

  predicate HasInk(s: string) {
    exists i | 0 <= i < |s| :: !JsText.IsTrimmed(s[i])
  }

  /** A number is itself, a boolean is 1 or 0, and a text that is not blank is what the host makes of it. */
  predicate ReadsAs(host: Host, v: Value, x: real) {
    || v == VNum(x)
    || (v == VBool(true) && x == 1.0)
    || (v == VBool(false) && x == 0.0)
    || (v.VStr? && HasInk(v.s) && host.toNumber(v.s) == Some(x))
  }

  ghost predicate IsNumeric(host: Host, v: Value) {
    exists x :: ReadsAs(host, v, x)
  }

  /** A text is itself, null is nothing, and everything else is shown as JSON. */
  function Shown(host: Host, v: Value): string {
    if v.VStr? then v.s else if v == VNull then "" else host.stringify(v)
  }

  const FALSY: set<Value> := {VNull, VBool(false), VNum(0.0), VStr(""), VArr([]), VObj([])}

  lemma {:induction false} Numbers(host: Host, v: Value, x: real)
    ensures NumOf(host, v) == Some(x) <==> ReadsAs(host, v, x)
    ensures IsNumeric(host, v) <==> NumOf(host, v).Some?
  {
    if NumOf(host, v).Some? {
      assert ReadsAs(host, v, NumOf(host, v).value);
    }
  }

  lemma {:induction false} Texts(host: Host, v: Value)
    ensures StrOf(host, v) == Shown(host, v)
    ensures Truthy(v) <==> v !in FALSY
  {
  }

  // ----- names and literals

  /** A literal is its value, and each name reads its own field of the context. */
  lemma {:induction false} NamesRead(host: Host, ctx: Context, v: Value)
    ensures Eval(host, ctx, Lit(v)) == Ok(v)
    ensures Eval(host, ctx, Var("input")) == Ok(ctx.input)
    ensures Eval(host, ctx, Var("output")) == Ok(ctx.output)
    ensures Eval(host, ctx, Var("expected")) == Ok(ctx.expected)
    ensures Eval(host, ctx, Var("metadata")) == Ok(ctx.metadata)
  {
  }

  // ----- arithmetic

  /** Operands that read as numbers: the sum (unless one is a text), the difference, the product and the quotient. */
  lemma {:induction false} NumbersCombine(host: Host, ctx: Context, l: Expr, r: Expr, a: Value, b: Value, x: real, y: real)
    requires Eval(host, ctx, l) == Ok(a) && Eval(host, ctx, r) == Ok(b) && ReadsAs(host, a, x) && ReadsAs(host, b, y)
    ensures !a.VStr? && !b.VStr? ==> Eval(host, ctx, Bin(Add, l, r)) == Ok(VNum(x + y))
    ensures Eval(host, ctx, Bin(Sub, l, r)) == Ok(VNum(x - y))
    ensures Eval(host, ctx, Bin(Mul, l, r)) == Ok(VNum(x * y))
    ensures Eval(host, ctx, Bin(Div, l, r)) == Ok(VNum(if y == 0.0 then 0.0 else x / y))
  {
    Numbers(host, a, x);
    Numbers(host, b, y);
    if !a.VStr? && !b.VStr? {
      ArithmeticOf(host, Add, a, b, x, y);
    }
    ArithmeticOf(host, Sub, a, b, x, y);
    ArithmeticOf(host, Mul, a, b, x, y);
    ArithmeticOf(host, Div, a, b, x, y);
    hide NumOf, ReadsAs, Arithmetic, Truthy, Compare;
  }

  lemma {:induction false} ArithmeticOf(host: Host, op: BinOp, a: Value, b: Value, x: real, y: real)
    requires NumOf(host, a) == Some(x) && NumOf(host, b) == Some(y) && (op == Add ==> !a.VStr? && !b.VStr?)
    ensures Arithmetic(host, op, a, b) == Ok(VNum(Combine(op, x, y)))
  {
    hide NumOf, StrOf, Combine;
  }

  function Times(k: int, y: real): real {
    k as real * y
  }

  ghost predicate IsRemainder(m: real, x: real, y: real) {
    if y == 0.0 then m == 0.0
    else
      && (if y > 0.0 then -y < m < y else y < m < -y)
      && (x >= 0.0 ==> m >= 0.0) && (x <= 0.0 ==> m <= 0.0)
      && exists k :: x - m == Times(k, y)
  }

  /** The remainder is smaller than the divisor, has the sign of the dividend, and differs from it by a multiple. */
  lemma {:induction false} RemainderIs(host: Host, ctx: Context, l: Expr, r: Expr, a: Value, b: Value, x: real, y: real)
    requires Eval(host, ctx, l) == Ok(a) && Eval(host, ctx, r) == Ok(b) && ReadsAs(host, a, x) && ReadsAs(host, b, y)
    ensures var m := Eval(host, ctx, Bin(Mod, l, r)); m.Ok? && m.value.VNum? && IsRemainder(m.value.n, x, y)
  {
    Numbers(host, a, x);
    Numbers(host, b, y);
    ArithmeticOf(host, Mod, a, b, x, y);
    hide NumOf, ReadsAs, Trunc, Arithmetic, Truthy, Compare;
    assert Eval(host, ctx, Bin(Mod, l, r)) == Arithmetic(host, Mod, a, b);
    assert Combine(Mod, x, y) == if y == 0.0 then 0.0 else x - y * Trunc(x / y) as real;
    hide *;
    RemainderOf(x, y);
  }

  lemma {:induction false} RemainderOf(x: real, y: real)
    ensures IsRemainder(if y == 0.0 then 0.0 else x - y * Trunc(x / y) as real, x, y)
  {
    if y != 0.0 {
      var q := x / y;
      assert x == q * y;
      RemainderFrom(x, y, q, Trunc(q));
    }
  }

  lemma {:induction false} RemainderFrom(x: real, y: real, q: real, t: int)
    requires y != 0.0 && x == q * y
    requires if q >= 0.0 then t as real <= q < t as real + 1.0 else t as real - 1.0 < q <= t as real
    ensures IsRemainder(x - y * t as real, x, y)
  {
    var k := t as real;
    Distributes(q, k, y);
    Fraction(q - k, y, (q - k) * y);
    SignOfQuotient(x, y, q);
    assert x - (x - y * k) == Times(t, y);
  }

  lemma {:induction false} Distributes(q: real, k: real, y: real)
    ensures (q - k) * y == q * y - y * k
  {
  }

  lemma {:induction false} Fraction(f: real, y: real, m: real)
    requires y != 0.0 && m == f * y
    ensures 0.0 <= f < 1.0 && y > 0.0 ==> 0.0 <= m < y
    ensures 0.0 <= f < 1.0 && y < 0.0 ==> y < m <= 0.0
    ensures -1.0 < f <= 0.0 && y > 0.0 ==> -y < m <= 0.0
    ensures -1.0 < f <= 0.0 && y < 0.0 ==> 0.0 <= m < -y
  {
    assert (f + 1.0) * y == m + y && (1.0 - f) * y == y - m;
    SignOfQuotient(m, y, f);
    SignOfQuotient(m + y, y, f + 1.0);
    SignOfQuotient(y - m, y, 1.0 - f);
  }

  lemma {:induction false} SignOfQuotient(x: real, y: real, q: real)
    requires y != 0.0 && x == q * y
    ensures q >= 0.0 <==> x == 0.0 || (x > 0.0 <==> y > 0.0)
    ensures x == 0.0 ==> q == 0.0
  {
  }

  /** There is only one such number. */
  lemma {:induction false} RemainderIsUnique(m: real, n: real, x: real, y: real)
    requires IsRemainder(m, x, y) && IsRemainder(n, x, y)
    ensures m == n
  {
    if y != 0.0 {
      var j :| x - m == Times(j, y);
      var k :| x - n == Times(k, y);
      var d := (k - j) as real;
      Distributes(k as real, j as real, y);
      assert k - j >= 1 || k - j <= -1 || k == j;
      MultipleIsBig(d, y, m - n);
    }
  }

  lemma {:induction false} MultipleIsBig(k: real, y: real, m: real)
    requires m == k * y && (k >= 1.0 || k <= -1.0 || k == 0.0)
    ensures m == 0.0 || m >= y >= 0.0 || m <= y <= 0.0 || m <= -y <= 0.0 || m >= -y >= 0.0
  {
    if k >= 1.0 {
      assert k * y - y == (k - 1.0) * y;
    } else if k <= -1.0 {
      assert -(k * y) - y == (-k - 1.0) * y;
    }
  }

  /** With a text on one side `+` joins the two as texts. */
  lemma {:induction false} TextsJoin(host: Host, ctx: Context, l: Expr, r: Expr, a: Value, b: Value)
    requires Eval(host, ctx, l) == Ok(a) && Eval(host, ctx, r) == Ok(b) && (a.VStr? || b.VStr?)
    ensures Eval(host, ctx, Bin(Add, l, r)) == Ok(VStr(Shown(host, a) + Shown(host, b)))
  {
  }

  /** Otherwise arithmetic on what does not read as a number is an error. */
  lemma {:induction false} OthersFail(host: Host, ctx: Context, op: BinOp, l: Expr, r: Expr, a: Value, b: Value)
    requires op in {Add, Sub, Mul, Div, Mod}
    requires Eval(host, ctx, l) == Ok(a) && Eval(host, ctx, r) == Ok(b) && (op == Add ==> !a.VStr? && !b.VStr?)
    ensures Eval(host, ctx, Bin(op, l, r)) == Err(NeedsNumbers(op)) <==> !IsNumeric(host, a) || !IsNumeric(host, b)
  {
    Numbers(host, a, 0.0);
    Numbers(host, b, 0.0);
    hide NumOf, IsNumeric;
  }

  lemma {:induction false} MinusNegates(host: Host, ctx: Context, e: Expr, v: Value, x: real)
    requires Eval(host, ctx, e) == Ok(v)
    ensures ReadsAs(host, v, x) ==> Eval(host, ctx, Unary(Neg, e)) == Ok(VNum(-x))
    ensures !IsNumeric(host, v) ==> Eval(host, ctx, Unary(Neg, e)) == Err(NegNeedsNumber)
  {
    Numbers(host, v, x);
    hide NumOf, ReadsAs, IsNumeric;
  }

  // ----- orderings and equality

  /** Where two texts first differ the first has the smaller character, or it has ended. */
  predicate Precedes(s: string, t: string) {
    exists k | 0 <= k <= |s| && k <= |t| :: s[..k] == t[..k] && k < |t| && (k == |s| || s[k] < t[k])
  }

  lemma {:induction false} LexicographicIs(s: string, t: string)
    ensures StrLess(s, t) <==> Precedes(s, t)
  {
    if s == "" || t == "" || s[0] != t[0] {
      if s != "" && t != "" {
        assert forall k | 0 < k <= |s| && k <= |t| :: s[..k][0] != t[..k][0];
      }
      assert s[..0] == t[..0];
    } else {
      LexicographicIs(s[1..], t[1..]);
      if k :| 0 <= k <= |s[1..]| && k <= |t[1..]| && s[1..][..k] == t[1..][..k] && k < |t[1..]| && (k == |s[1..]| || s[1..][k] < t[1..][k]) {
        assert s[..k + 1] == [s[0]] + s[1..][..k] && t[..k + 1] == [t[0]] + t[1..][..k];
        assert s[..k + 1] == t[..k + 1] && k + 1 < |t|;
        assert k + 1 == |s| || s[k + 1] < t[k + 1];
      }
      if k :| 0 <= k <= |s| && k <= |t| && s[..k] == t[..k] && k < |t| && (k == |s| || s[k] < t[k]) {
        assert k > 0;
        assert s[1..][..k - 1] == s[..k][1..] && t[1..][..k - 1] == t[..k][1..];
        assert k - 1 == |s[1..]| || s[1..][k - 1] < t[1..][k - 1];
      }
    }
  }

  /** Numbers are ordered as numbers. */
  lemma {:induction false} NumbersOrder(host: Host, ctx: Context, l: Expr, r: Expr, a: Value, b: Value, x: real, y: real)
    requires Eval(host, ctx, l) == Ok(a) && Eval(host, ctx, r) == Ok(b) && ReadsAs(host, a, x) && ReadsAs(host, b, y)
    ensures Eval(host, ctx, Bin(Lt, l, r)) == Ok(VBool(x < y))
    ensures Eval(host, ctx, Bin(Le, l, r)) == Ok(VBool(x <= y))
    ensures Eval(host, ctx, Bin(Gt, l, r)) == Ok(VBool(x > y))
    ensures Eval(host, ctx, Bin(Ge, l, r)) == Ok(VBool(x >= y))
  {
    Numbers(host, a, x);
    Numbers(host, b, y);
    hide NumOf, ReadsAs, Arithmetic;
  }

  /** All other pairs are ordered as texts. */
  lemma {:induction false} TextsOrder(host: Host, ctx: Context, l: Expr, r: Expr, a: Value, b: Value)
    requires Eval(host, ctx, l) == Ok(a) && Eval(host, ctx, r) == Ok(b) && !(IsNumeric(host, a) && IsNumeric(host, b))
    ensures var s, t := Shown(host, a), Shown(host, b);
            && Eval(host, ctx, Bin(Lt, l, r)) == Ok(VBool(Precedes(s, t)))
            && Eval(host, ctx, Bin(Le, l, r)) == Ok(VBool(Precedes(s, t) || s == t))
            && Eval(host, ctx, Bin(Gt, l, r)) == Ok(VBool(Precedes(t, s)))
            && Eval(host, ctx, Bin(Ge, l, r)) == Ok(VBool(Precedes(t, s) || s == t))
  {
    Numbers(host, a, 0.0);
    Numbers(host, b, 0.0);
    Texts(host, a);
    Texts(host, b);
    LexicographicIs(Shown(host, a), Shown(host, b));
    LexicographicIs(Shown(host, b), Shown(host, a));
    hide NumOf, IsNumeric, Precedes, StrLess, Shown, StrOf, Arithmetic;
  }

  /** Equality is being the same JSON value, up to the order of keys. */
  lemma {:induction false} EqualityIsSameness(host: Host, ctx: Context, l: Expr, r: Expr, a: Value, b: Value)
    requires Eval(host, ctx, l) == Ok(a) && Eval(host, ctx, r) == Ok(b) && ValidValue(a) && ValidValue(b)
    ensures Eval(host, ctx, Bin(Eq, l, r)) == Ok(VBool(Canon(a) == Canon(b)))
    ensures Eval(host, ctx, Bin(Ne, l, r)) == Ok(VBool(Canon(a) != Canon(b)))
  {
    DeepEqualIsCanonical(a, b);
    hide DeepEqual, Canon, ValidValue, Arithmetic, Less, SameOrder;
  }

  // ----- conditions

  lemma {:induction false} NotIs(host: Host, ctx: Context, e: Expr, v: Value)
    requires Eval(host, ctx, e) == Ok(v)
    ensures Eval(host, ctx, Unary(Not, e)) == Ok(VBool(v in FALSY))
  {
    Texts(host, v);
  }

  lemma {:induction false} AndIs(host: Host, ctx: Context, l: Expr, r: Expr, a: Value)
    requires Eval(host, ctx, l) == Ok(a)
    ensures var b := Eval(host, ctx, r);
            Eval(host, ctx, Bin(And, l, r)) == if !Truthy(a) then Ok(VBool(false)) else if b.Err? then b else Ok(VBool(Truthy(b.value)))
  {
    hide Truthy, Compare, Arithmetic;
  }

  lemma {:induction false} OrIs(host: Host, ctx: Context, l: Expr, r: Expr, a: Value)
    requires Eval(host, ctx, l) == Ok(a)
    ensures var b := Eval(host, ctx, r);
            Eval(host, ctx, Bin(Or, l, r)) == if Truthy(a) then Ok(VBool(true)) else if b.Err? then b else Ok(VBool(Truthy(b.value)))
  {
    hide Truthy, Compare, Arithmetic;
  }

  /** The right operand of `and` and `or` is evaluated only when the left one does not decide. */
  lemma {:induction false} AndOrAre(host: Host, ctx: Context, l: Expr, r: Expr, a: Value)
    requires Eval(host, ctx, l) == Ok(a)
    ensures a in FALSY ==> Eval(host, ctx, Bin(And, l, r)) == Ok(VBool(false))
    ensures a !in FALSY ==> Eval(host, ctx, Bin(Or, l, r)) == Ok(VBool(true))
    ensures var b := Eval(host, ctx, r);
            && (a !in FALSY ==> Eval(host, ctx, Bin(And, l, r)) == if b.Err? then b else Ok(VBool(b.value !in FALSY)))
            && (a in FALSY ==> Eval(host, ctx, Bin(Or, l, r)) == if b.Err? then b else Ok(VBool(b.value !in FALSY)))
  {
    hide Eval;
    AndIs(host, ctx, l, r, a);
    OrIs(host, ctx, l, r, a);
    Texts(host, a);
    var b := Eval(host, ctx, r);
    if b.Ok? {
      Texts(host, b.value);
    }
    hide Truthy, FALSY;
  }

  /** A conditional is its second part when the test is not one of the falsy values, and its third when it is. */
  lemma {:induction false} ConditionalIs(host: Host, ctx: Context, test: Expr, a: Expr, b: Expr, v: Value)
    requires Eval(host, ctx, test) == Ok(v)
    ensures v !in FALSY ==> Eval(host, ctx, Cond(test, a, b)) == Eval(host, ctx, a)
    ensures v in FALSY ==> Eval(host, ctx, Cond(test, a, b)) == Eval(host, ctx, b)
  {
    Texts(host, v);
  }

  /** An error of the first operand is the error of the whole; so is one of the second, where it is evaluated. */
  lemma {:induction false} ErrorsWin(host: Host, ctx: Context, op: BinOp, l: Expr, r: Expr, uop: UnaryOp, c: Expr, name: string)
    ensures Eval(host, ctx, l).Err? ==>
              && Eval(host, ctx, Bin(op, l, r)) == Eval(host, ctx, l) && Eval(host, ctx, Index(l, r)) == Eval(host, ctx, l)
              && Eval(host, ctx, Unary(uop, l)) == Eval(host, ctx, l) && Eval(host, ctx, Member(l, name)) == Eval(host, ctx, l)
              && Eval(host, ctx, Cond(l, r, c)) == Eval(host, ctx, l)
    ensures Eval(host, ctx, l).Ok? && Eval(host, ctx, r).Err? ==>
              && Eval(host, ctx, Index(l, r)) == Eval(host, ctx, r)
              && (op !in {And, Or} ==> Eval(host, ctx, Bin(op, l, r)) == Eval(host, ctx, r))
  {
  }

  // ----- members

  ghost predicate IsIndex(host: Host, key: string, i: nat) {
    host.toNumber(key) == Some(i as real)
  }

  /** What reading `key` of a value gives. */
  ghost predicate Reads(host: Host, v: Value, key: string, r: Evaluated) {
    if key in {"__proto__", "constructor", "prototype"} then r == Err(ForbiddenKey(key))
    else if v.VStr? then r == Ok(if key == "length" then VNum(|v.s| as real) else VNull)
    else if v.VArr? then
      if key == "length" then r == Ok(VNum(|v.elems| as real))
      else
        && (forall i: nat | i < |v.elems| && IsIndex(host, key, i) :: r == Ok(v.elems[i]))
        && ((forall i: nat | i < |v.elems| :: !IsIndex(host, key, i)) ==> r == Ok(VNull))
    else if v.VObj? then
      && (UniqueKeys(v.entries) ==> forall i | 0 <= i < |v.entries| && v.entries[i].key == key :: r == Ok(v.entries[i].value))
      && ((forall i | 0 <= i < |v.entries| :: v.entries[i].key != key) ==> r == Ok(VNull))
    else r == Ok(VNull)
  }

  lemma {:induction false} ReadMemberReads(host: Host, v: Value, key: string)
    ensures Reads(host, v, key, ReadMember(host, v, key))
  {
    if v.VArr? {
      var idx := host.toNumber(key);
      assert idx.Some? && idx.value.Floor as real == idx.value && idx.value >= 0.0 ==> IsIndex(host, key, idx.value.Floor);
    }
    if v.VObj? && UniqueKeys(v.entries) {
      forall i | 0 <= i < |v.entries| && v.entries[i].key == key
        ensures Lookup(v.entries, key) == Some(v.entries[i].value)
      {
        LookupAt(v.entries, i);
      }
    }
  }

  /** A property reads its own name, and an index the text or the number in the brackets. */
  lemma {:induction false} MembersRead(host: Host, ctx: Context, obj: Expr, name: string, idx: Expr, v: Value, i: Value)
    requires Eval(host, ctx, obj) == Ok(v)
    ensures Reads(host, v, name, Eval(host, ctx, Member(obj, name)))
    ensures Eval(host, ctx, idx) == Ok(i) ==> Reads(host, v, Shown(host, i), Eval(host, ctx, Index(obj, idx)))
  {
    ReadMemberReads(host, v, name);
    ReadMemberReads(host, v, Shown(host, i));
    Texts(host, i);
    hide Reads, ReadMember, Shown, StrOf;
  }

  // ----- calls

  /** A wrong number of arguments is an error before any of them is evaluated. */
  lemma {:induction false} WrongCountsFail(host: Host, ctx: Context, name: string, args: seq<Expr>)
    requires (name in ExprVocabulary.ONE_ARGUMENT && |args| != 1) || (name in ExprVocabulary.TWO_ARGUMENTS && |args| != 2)
    ensures Eval(host, ctx, Call(name, args)) == Err(WrongArity(name, |args|))
  {
    hide CallBuiltin, EvalArgs;
  }

  lemma {:induction false} CallOfOne(host: Host, ctx: Context, name: string, e: Expr, v: Value)
    requires Eval(host, ctx, e) == Ok(v) && name in ExprVocabulary.ONE_ARGUMENT
    ensures Eval(host, ctx, Call(name, [e])) == Ok(CallBuiltin1(host, name, v))
  {
    hide CallBuiltin1, IsBuiltin2;
    assert [e][1..] == [] && [v] + [] == [v];
    assert EvalArgs(host, ctx, [e]) == Values([v]);
    hide EvalArgs;
  }

  lemma {:induction false} CallOfTwo(host: Host, ctx: Context, name: string, d: Expr, e: Expr, a: Value, b: Value)
    requires Eval(host, ctx, d) == Ok(a) && Eval(host, ctx, e) == Ok(b) && name in ExprVocabulary.TWO_ARGUMENTS
    ensures Eval(host, ctx, Call(name, [d, e])) == CallBuiltin2(host, name, a, b)
  {
    hide CallBuiltin2;
    EvalTwoArgs(host, ctx, d, e, a, b);
    hide EvalArgs;
  }

  /** How many characters, elements or keys. */
  function CountOf(v: Value): nat {
    if v.VStr? then |v.s| else if v.VArr? then |v.elems| else if v.VObj? then |v.entries| else 0
  }

  /** What does not read as a number counts as 0. */
  ghost predicate CountsAs(host: Host, v: Value, x: real) {
    ReadsAs(host, v, x) || (!IsNumeric(host, v) && x == 0.0)
  }

  lemma {:induction false} CountsOrZero(host: Host, v: Value, x: real)
    requires CountsAs(host, v, x)
    ensures NumOrZero(host, v) == x
  {
    Numbers(host, v, x);
  }

  lemma {:induction false} TextFunctions(host: Host, ctx: Context, e: Expr, v: Value)
    requires Eval(host, ctx, e) == Ok(v)
    ensures Eval(host, ctx, Call("len", [e])) == Ok(VNum(CountOf(v) as real))
    ensures Eval(host, ctx, Call("isEmpty", [e])) == Ok(VBool(CountOf(v) == 0))
    ensures Eval(host, ctx, Call("lower", [e])) == Ok(VStr(host.lower(Shown(host, v))))
    ensures Eval(host, ctx, Call("upper", [e])) == Ok(VStr(host.upper(Shown(host, v))))
    ensures Eval(host, ctx, Call("trim", [e])) == Ok(VStr(host.trim(Shown(host, v))))
  {
    hide Eval;
    CallOfOne(host, ctx, "len", e, v);
    CallOfOne(host, ctx, "isEmpty", e, v);
    CallOfOne(host, ctx, "lower", e, v);
    CallOfOne(host, ctx, "upper", e, v);
    CallOfOne(host, ctx, "trim", e, v);
  }

  lemma {:induction false} JsonFunctions(host: Host, ctx: Context, e: Expr, v: Value)
    requires Eval(host, ctx, e) == Ok(v)
    ensures var parsed := host.jsonParse(Shown(host, v));
            && Eval(host, ctx, Call("jsonValid", [e])) == Ok(VBool(parsed.Some?))
            && Eval(host, ctx, Call("jsonParse", [e])) == Ok(if parsed.Some? then parsed.value else VNull)
    ensures var words := Eval(host, ctx, Call("words", [e]));
            && words.Ok? && words.value.VArr? && |words.value.elems| == |host.words(Shown(host, v))|
            && forall i | 0 <= i < |words.value.elems| :: words.value.elems[i] == VStr(host.words(Shown(host, v))[i])
  {
    hide Eval;
    CallOfOne(host, ctx, "jsonValid", e, v);
    CallOfOne(host, ctx, "jsonParse", e, v);
    CallOfOne(host, ctx, "words", e, v);
  }

  predicate IsNearest(k: int, x: real) {
    k as real - 0.5 <= x < k as real + 0.5
  }

  /** `num` gives the number or null; `abs` drops the sign; `round` goes to the nearest whole number, up from the middle. */
  lemma {:induction false} NumberFunctions(host: Host, ctx: Context, e: Expr, v: Value, x: real)
    requires Eval(host, ctx, e) == Ok(v) && CountsAs(host, v, x)
    ensures Eval(host, ctx, Call("num", [e])) == Ok(if IsNumeric(host, v) then VNum(x) else VNull)
    ensures Eval(host, ctx, Call("abs", [e])) == Ok(VNum(if x >= 0.0 then x else -x))
    ensures exists k :: IsNearest(k, x) && Eval(host, ctx, Call("round", [e])) == Ok(VNum(k as real))
  {
    hide Eval;
    CallOfOne(host, ctx, "num", e, v);
    CallOfOne(host, ctx, "abs", e, v);
    CallOfOne(host, ctx, "round", e, v);
    CountsOrZero(host, v, x);
    Numbers(host, v, x);
    hide NumOf, NumOrZero, ReadsAs, IsNumeric;
    var k := (x + 0.5).Floor;
    assert IsNearest(k, x) && Eval(host, ctx, Call("round", [e])) == Ok(VNum(k as real));
  }

  lemma {:induction false} SmallerAndGreater(host: Host, ctx: Context, d: Expr, e: Expr, a: Value, b: Value, x: real, y: real)
    requires Eval(host, ctx, d) == Ok(a) && Eval(host, ctx, e) == Ok(b) && CountsAs(host, a, x) && CountsAs(host, b, y)
    ensures Eval(host, ctx, Call("min", [d, e])) == Ok(VNum(if x <= y then x else y))
    ensures Eval(host, ctx, Call("max", [d, e])) == Ok(VNum(if x <= y then y else x))
  {
    hide Eval;
    CallOfTwo(host, ctx, "min", d, e, a, b);
    CallOfTwo(host, ctx, "max", d, e, a, b);
    CountsOrZero(host, a, x);
    CountsOrZero(host, b, y);
    hide NumOrZero, CountsAs;
  }

  /** Is `part` somewhere in the text? */
  ghost predicate IsPartOf(part: string, text: string) {
    exists before, after :: text == before + part + after
  }

  lemma {:induction false} IncludesIs(text: string, part: string)
    ensures Includes(text, part) <==> IsPartOf(part, text)
  {
    if i :| 0 <= i <= |text| && part <= text[i..] {
      var rest := text[i..];
      assert text == text[..i] + rest && rest == part + rest[|part|..];
      assert text == text[..i] + part + rest[|part|..];
    }
    if before, after :| text == before + part + after {
      assert text[|before|..] == part + after;
      assert part <= text[|before|..];
    }
  }

  lemma {:induction false} ContainsIs(host: Host, a: Value, b: Value)
    requires ValidValue(a) && ValidValue(b)
    ensures CallBuiltin2(host, "contains", a, b) ==
            Ok(VBool(if a.VArr? then exists i :: 0 <= i < |a.elems| && Canon(a.elems[i]) == Canon(b)
                     else IsPartOf(Shown(host, b), Shown(host, a))))
  {
    if a.VArr? {
      forall i | 0 <= i < |a.elems| ensures DeepEqual(a.elems[i], b) <==> Canon(a.elems[i]) == Canon(b) {
        DeepEqualIsCanonical(a.elems[i], b);
      }
    } else {
      Texts(host, a);
      Texts(host, b);
      IncludesIs(Shown(host, a), Shown(host, b));
    }
    hide DeepEqual, Canon, ValidValue, Includes, IsPartOf, Shown, StrOf;
  }

  lemma {:induction false} EndsAre(host: Host, a: Value, b: Value)
    ensures var s, t := Shown(host, a), Shown(host, b);
            && CallBuiltin2(host, "startsWith", a, b) == Ok(VBool(exists rest :: s == t + rest))
            && CallBuiltin2(host, "endsWith", a, b) == Ok(VBool(exists rest :: s == rest + t))
  {
    Texts(host, a);
    Texts(host, b);
    StartsAndEnds(Shown(host, a), Shown(host, b));
    hide Shown, StrOf;
  }

  lemma {:induction false} SearchFunctions(host: Host, ctx: Context, d: Expr, e: Expr, a: Value, b: Value)
    requires Eval(host, ctx, d) == Ok(a) && Eval(host, ctx, e) == Ok(b) && ValidValue(a) && ValidValue(b)
    ensures var s, t := Shown(host, a), Shown(host, b);
            && Eval(host, ctx, Call("contains", [d, e])) ==
               Ok(VBool(if a.VArr? then exists i :: 0 <= i < |a.elems| && Canon(a.elems[i]) == Canon(b) else IsPartOf(t, s)))
            && Eval(host, ctx, Call("startsWith", [d, e])) == Ok(VBool(exists rest :: s == t + rest))
            && Eval(host, ctx, Call("endsWith", [d, e])) == Ok(VBool(exists rest :: s == rest + t))
            && Eval(host, ctx, Call("exactMatch", [d, e])) == Ok(VBool(Canon(a) == Canon(b)))
  {
    CallOfTwo(host, ctx, "contains", d, e, a, b);
    CallOfTwo(host, ctx, "startsWith", d, e, a, b);
    CallOfTwo(host, ctx, "endsWith", d, e, a, b);
    CallOfTwo(host, ctx, "exactMatch", d, e, a, b);
    assert CallBuiltin2(host, "exactMatch", a, b) == Ok(VBool(DeepEqual(a, b)));
    hide *;
    DeepEqualIsCanonical(a, b);
    ContainsIs(host, a, b);
    EndsAre(host, a, b);
  }

  lemma {:induction false} StartsAndEnds(s: string, t: string)
    ensures t <= s <==> exists rest :: s == t + rest
    ensures |t| <= |s| && s[|s| - |t|..] == t <==> exists rest :: s == rest + t
  {
    if t <= s {
      assert s == t + s[|t|..];
    }
    if |t| <= |s| && s[|s| - |t|..] == t {
      assert s == s[..|s| - |t|] + t;
    }
  }

  /** `has` looks for a key, `coalesce` replaces null, and `matches` runs a pattern that is safe on a subject that is not too long. */
  lemma {:induction false} OtherFunctions(host: Host, ctx: Context, d: Expr, e: Expr, a: Value, b: Value)
    requires Eval(host, ctx, d) == Ok(a) && Eval(host, ctx, e) == Ok(b)
    ensures var s, t := Shown(host, a), Shown(host, b);
            && Eval(host, ctx, Call("has", [d, e])) == Ok(VBool(a.VObj? && exists i :: 0 <= i < |a.entries| && a.entries[i].key == t))
            && Eval(host, ctx, Call("coalesce", [d, e])) == Ok(if a == VNull then b else a)
            && Eval(host, ctx, Call("jsonPath", [d, e])) == Ok(host.jsonPath(a, t))
            && Eval(host, ctx, Call("matches", [d, e])) ==
               if host.isValidRegex(t) && RegexSafety.MaxStarHeight(t) <= 1 && |s| <= 20000 then Ok(VBool(host.regexTest(t, s)))
               else Err(BuiltinFailed("matches"))
  {
    hide Eval;
    CallOfTwo(host, ctx, "has", d, e, a, b);
    CallOfTwo(host, ctx, "coalesce", d, e, a, b);
    CallOfTwo(host, ctx, "jsonPath", d, e, a, b);
    CallOfTwo(host, ctx, "matches", d, e, a, b);
  }

  /** A run gives a score exactly when the source means a boolean or a number from 0 to 1: 1, 0 or that number. */
  lemma {:induction false} ScoresAre(v: Value, x: real)
    ensures ScoreOf(v) == Ok(Scored(x, v)) <==>
            (v == VBool(true) && x == 1.0) || (v == VBool(false) && x == 0.0) || (v == VNum(x) && 0.0 <= x <= 1.0)
    ensures (forall y :: ScoreOf(v) != Ok(Scored(y, v))) ==> ScoreOf(v) == Err(NotAScore(v))
  {
  }
}
