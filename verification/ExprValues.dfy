/**
 The operations on values of the expression language: structural equality, member access, truthiness,
 comparison and arithmetic. What the host does with text (JSON, numbers, regular expressions, case) is a
 parameter, the record `Host`.
 */
module ExprValues {
  import opened Outcome
  import opened JsText
  import opened ExprSyntax
  import RegexSafety

  datatype EvalError =
    | OverBudget
    | ForbiddenKey(key: string)
    | NeedsNumbers(op: BinOp)
    | NegNeedsNumber
    | WrongArity(name: string, given: nat)
    | BuiltinFailed(name: string)

  type Evaluated = Result<Value, EvalError>

  /** `stringify` is JSON.stringify; `toNumber` is Number on a text, when the result is finite. */
  datatype Host = Host(
    stringify: Value -> string,
    toNumber: string -> Option<real>,
    lower: string -> string,
    upper: string -> string,
    trim: string -> string,
    words: string -> seq<string>,
    jsonParse: string -> Option<Value>,
    jsonPath: (Value, string) -> Value,
    isValidRegex: string -> bool,
    regexTest: (string, string) -> bool)

  // ----- structural equality

  function Lookup(entries: seq<Entry>, key: string): (r: Option<Value>)
    ensures r.Some? <==> exists i | 0 <= i < |entries| :: entries[i].key == key
    ensures r.Some? ==> exists i | 0 <= i < |entries| :: entries[i] == Entry(key, r.value)
  {
    if entries == [] then None
    else if entries[0].key == key then Some(entries[0].value)
    else Lookup(entries[1..], key)
  }

  /** A JSON value: no object has a key twice. */
  ghost predicate ValidValue(v: Value) {
    match v
    case VArr(elems) => forall i | 0 <= i < |elems| :: ValidValue(elems[i])
    case VObj(entries) =>
      && (forall i | 0 <= i < |entries| :: ValidValue(entries[i].value))
      && UniqueKeys(entries)
    case _ => true
  }

  ghost predicate UniqueKeys(entries: seq<Entry>) {
    forall i, j | 0 <= i < j < |entries| :: entries[i].key != entries[j].key
  }

  /** The comparison the language makes, side by side through both values. */
  predicate DeepEqual(a: Value, b: Value) {
    match (a, b)
    case (VArr(xs), VArr(ys)) => |xs| == |ys| && forall i | 0 <= i < |xs| :: DeepEqual(xs[i], ys[i])
    case (VObj(xs), VObj(ys)) =>
      |xs| == |ys| && forall i | 0 <= i < |xs| ::
        var other := Lookup(ys, xs[i].key);
        other.Some? && DeepEqual(xs[i].value, other.value)
    case (VArr(_), _) => false
    case (VObj(_), _) => false
    case _ => a == b
  }

  /** A value with its objects as maps, so that the order of keys is gone. */
  datatype Canonical =
    | CScalar(v: Value)
    | CArr(elems: seq<Canonical>)
    | CObj(fields: map<string, Canonical>)

  function Canon(v: Value): Canonical {
    match v
    case VArr(elems) => CArr(seq(|elems|, i requires 0 <= i < |elems| => Canon(elems[i])))
    case VObj(entries) => CObj(CanonFields(entries))
    case _ => CScalar(v)
  }

  function CanonFields(entries: seq<Entry>): map<string, Canonical> {
    if entries == [] then map[] else CanonFields(entries[1..])[entries[0].key := Canon(entries[0].value)]
  }

  lemma {:induction false} CanonFieldsAre(entries: seq<Entry>)
    ensures var m := CanonFields(entries);
      && (forall k :: k in m <==> Lookup(entries, k).Some?)
      && (forall k | k in m :: m[k] == Canon(Lookup(entries, k).value))
  {
    if entries != [] {
      CanonFieldsAre(entries[1..]);
    }
  }

  ghost function Keys(entries: seq<Entry>): (keys: set<string>)
    ensures forall k :: k in keys <==> Lookup(entries, k).Some?
  {
    set i | 0 <= i < |entries| :: entries[i].key
  }

  lemma {:induction false} KeyCount(entries: seq<Entry>)
    requires UniqueKeys(entries)
    ensures |Keys(entries)| == |entries|
  {
    if entries != [] {
      KeyCount(entries[1..]);
      assert Keys(entries) == Keys(entries[1..]) + {entries[0].key};
      assert entries[0].key !in Keys(entries[1..]);
    } else {
      assert Keys(entries) == {};
    }
  }

  lemma {:induction false} SameSizeSubset(a: set<string>, b: set<string>)
    requires a <= b && |a| == |b|
    ensures a == b
  {
    assert b == a + (b - a);
  }

  lemma {:induction false} LookupAt(entries: seq<Entry>, i: nat)
    requires UniqueKeys(entries) && i < |entries|
    ensures Lookup(entries, entries[i].key) == Some(entries[i].value)
  {
    var r := Lookup(entries, entries[i].key);
    var j :| 0 <= j < |entries| && entries[j] == Entry(entries[i].key, r.value);
  }

  /** Two JSON values are equal in the language exactly when they are the same up to the order of keys. */
  lemma {:induction false} DeepEqualIsCanonical(a: Value, b: Value)
    requires ValidValue(a) && ValidValue(b)
    ensures DeepEqual(a, b) <==> Canon(a) == Canon(b)
    decreases a
  {
    if a.VArr? && b.VArr? {
      ArraysCanonical(a, b);
    } else if a.VObj? && b.VObj? {
      ObjectsCanonical(a, b);
    }
  }

  lemma {:induction false} ArraysCanonical(a: Value, b: Value)
    requires a.VArr? && b.VArr? && ValidValue(a) && ValidValue(b)
    ensures DeepEqual(a, b) <==> Canon(a) == Canon(b)
    decreases a, 0
  {
    var xs, ys := a.elems, b.elems;
    forall i | 0 <= i < |xs| && i < |ys|
      ensures DeepEqual(xs[i], ys[i]) <==> Canon(a).elems[i] == Canon(b).elems[i]
    {
      DeepEqualIsCanonical(xs[i], ys[i]);
    }
    if DeepEqual(a, b) {
      assert Canon(a).elems == Canon(b).elems;
    }
    if Canon(a) == Canon(b) {
      assert |Canon(a).elems| == |xs| && |Canon(b).elems| == |ys|;
    }
  }

  /** An entry matches the other object exactly when both maps agree on its key. */
  lemma {:induction false} EntryCanonical(x: Entry, xs: seq<Entry>, ys: seq<Entry>)
    requires x in xs && UniqueKeys(xs) && ValidValue(x.value)
    requires forall j | 0 <= j < |ys| :: ValidValue(ys[j].value)
    ensures var other := Lookup(ys, x.key); var ca, cb := CanonFields(xs), CanonFields(ys);
      && x.key in ca && (x.key in cb <==> other.Some?)
      && (other.Some? ==> (DeepEqual(x.value, other.value) <==> ca[x.key] == cb[x.key]))
    decreases x
  {
    CanonFieldsAre(xs);
    CanonFieldsAre(ys);
    var i :| 0 <= i < |xs| && xs[i] == x;
    LookupAt(xs, i);
    var other := Lookup(ys, x.key);
    if other.Some? {
      var j :| 0 <= j < |ys| && ys[j] == Entry(x.key, other.value);
      DeepEqualIsCanonical(x.value, other.value);
    }
  }

  lemma {:induction false} MapsEqual(a: map<string, Canonical>, b: map<string, Canonical>)
    requires |a| == |b| && forall k | k in a :: k in b && a[k] == b[k]
    ensures a == b
  {
    assert a.Keys <= b.Keys;
    SameSizeSubset(a.Keys, b.Keys);
  }

  lemma {:induction false} FieldKeys(entries: seq<Entry>)
    requires UniqueKeys(entries)
    ensures CanonFields(entries).Keys == Keys(entries) && |CanonFields(entries)| == |entries|
  {
    CanonFieldsAre(entries);
    KeyCount(entries);
    assert CanonFields(entries).Keys == Keys(entries);
  }

  lemma {:induction false} EntryKey(entries: seq<Entry>, k: string) returns (i: nat)
    requires k in Keys(entries)
    ensures i < |entries| && entries[i].key == k
  {
    i :| 0 <= i < |entries| && entries[i].key == k;
  }

  lemma {:induction false} SameFields(xs: seq<Entry>, ys: seq<Entry>)
    requires UniqueKeys(xs) && UniqueKeys(ys)
    ensures CanonFields(xs) == CanonFields(ys) <==>
      && |xs| == |ys|
      && forall i | 0 <= i < |xs| ::
           xs[i].key in CanonFields(xs) && xs[i].key in CanonFields(ys)
           && CanonFields(xs)[xs[i].key] == CanonFields(ys)[xs[i].key]
  {
    var ca, cb := CanonFields(xs), CanonFields(ys);
    FieldKeys(xs);
    FieldKeys(ys);
    hide CanonFields, Lookup, UniqueKeys, Keys;
    forall i | 0 <= i < |xs|
      ensures xs[i].key in ca
    {
      KeyOfEntry(xs, i);
    }
    if |xs| == |ys| && forall i | 0 <= i < |xs| :: xs[i].key in cb && ca[xs[i].key] == cb[xs[i].key] {
      forall k | k in ca
        ensures k in cb && ca[k] == cb[k]
      {
        var i := EntryKey(xs, k);
      }
      MapsEqual(ca, cb);
    }
  }

  lemma {:induction false} KeyOfEntry(entries: seq<Entry>, i: nat)
    requires i < |entries|
    ensures entries[i].key in Keys(entries)
  {
  }

  lemma {:induction false} ObjectsCanonical(a: Value, b: Value)
    requires a.VObj? && b.VObj? && ValidValue(a) && ValidValue(b)
    ensures DeepEqual(a, b) <==> Canon(a) == Canon(b)
    decreases a, 0
  {
    var xs, ys := a.entries, b.entries;
    assert forall j | 0 <= j < |ys| :: ValidValue(ys[j].value);
    forall i | 0 <= i < |xs|
      ensures xs[i].key in CanonFields(xs) && (xs[i].key in CanonFields(ys) <==> Lookup(ys, xs[i].key).Some?)
      ensures Lookup(ys, xs[i].key).Some? ==>
        (DeepEqual(xs[i].value, Lookup(ys, xs[i].key).value) <==>
         CanonFields(xs)[xs[i].key] == CanonFields(ys)[xs[i].key])
    {
      EntryCanonical(xs[i], xs, ys);
    }
    SameFields(xs, ys);
    ObjectEquality(a, b);
    hide CanonFields, DeepEqual;
  }

  /** What equality of objects means, one step deep. */
  lemma {:induction false} ObjectEquality(a: Value, b: Value)
    requires a.VObj? && b.VObj?
    ensures DeepEqual(a, b) <==>
      && |a.entries| == |b.entries|
      && forall i | 0 <= i < |a.entries| ::
           Lookup(b.entries, a.entries[i].key).Some?
           && DeepEqual(a.entries[i].value, Lookup(b.entries, a.entries[i].key).value)
    ensures Canon(a) == Canon(b) <==> CanonFields(a.entries) == CanonFields(b.entries)
  {
  }

  /** So equality is an equivalence relation. */
  lemma {:induction false} DeepEqualIsEquivalence(a: Value, b: Value, c: Value)
    requires ValidValue(a) && ValidValue(b) && ValidValue(c)
    ensures DeepEqual(a, a)
    ensures DeepEqual(a, b) <==> DeepEqual(b, a)
    ensures DeepEqual(a, b) && DeepEqual(b, c) ==> DeepEqual(a, c)
  {
    hide DeepEqual, Canon, ValidValue;
    DeepEqualIsCanonical(a, a);
    DeepEqualIsCanonical(a, b);
    DeepEqualIsCanonical(b, a);
    DeepEqualIsCanonical(b, c);
    DeepEqualIsCanonical(a, c);
  }

  // ----- coercions

  function StrOf(host: Host, v: Value): string {
    match v
    case VStr(s) => s
    case VNull => ""
    case _ => host.stringify(v)
  }

  function NumOf(host: Host, v: Value): Option<real> {
    match v
    case VNum(n) => Some(n)
    case VBool(b) => Some(if b then 1.0 else 0.0)
    case VStr(s) => if IsBlank(s) then None else host.toNumber(s)
    case _ => None
  }

  function NumOrZero(host: Host, v: Value): real {
    var n := NumOf(host, v);
    if n.Some? then n.value else 0.0
  }

  function LengthOf(v: Value): nat {
    match v
    case VStr(s) => |s|
    case VArr(elems) => |elems|
    case VObj(entries) => |entries|
    case _ => 0
  }

  /** An empty array or object is falsy. */
  predicate Truthy(v: Value) {
    match v
    case VBool(b) => b
    case VNull => false
    case VNum(n) => n != 0.0
    case _ => LengthOf(v) > 0
  }

  predicate IsForbidden(key: string) {
    key == "__proto__" || key == "constructor" || key == "prototype"
  }

  function ReadMember(host: Host, obj: Value, key: string): Evaluated {
    if IsForbidden(key) then Err(ForbiddenKey(key))
    else match obj
      case VStr(s) => Ok(if key == "length" then VNum(|s| as real) else VNull)
      case VArr(elems) =>
        if key == "length" then Ok(VNum(|elems| as real))
        else
          var idx := host.toNumber(key);
          if idx.Some? && idx.value.Floor as real == idx.value && 0 <= idx.value.Floor < |elems|
          then Ok(elems[idx.value.Floor]) else Ok(VNull)
      case VObj(entries) =>
        var found := Lookup(entries, key);
        Ok(if found.Some? then found.value else VNull)
      case _ => Ok(VNull)
  }

  // ----- comparison and arithmetic

  /** The lexicographic order of texts. */
  predicate StrLess(a: string, b: string) {
    if b == "" then false
    else if a == "" then true
    else a[0] < b[0] || (a[0] == b[0] && StrLess(a[1..], b[1..]))
  }

  /** Ordering compares numbers when both sides coerce, and texts otherwise. */
  predicate Less(host: Host, l: Value, r: Value) {
    var a, b := NumOf(host, l), NumOf(host, r);
    if a.Some? && b.Some? then a.value < b.value else StrLess(StrOf(host, l), StrOf(host, r))
  }

  predicate SameOrder(host: Host, l: Value, r: Value) {
    var a, b := NumOf(host, l), NumOf(host, r);
    if a.Some? && b.Some? then a.value == b.value else StrOf(host, l) == StrOf(host, r)
  }

  predicate IsComparison(op: BinOp) {
    op.Eq? || op.Ne? || op.Lt? || op.Le? || op.Gt? || op.Ge?
  }

  function Compare(host: Host, op: BinOp, l: Value, r: Value): bool {
    match op
    case Eq => DeepEqual(l, r)
    case Ne => !DeepEqual(l, r)
    case Lt => Less(host, l, r)
    case Le => Less(host, l, r) || SameOrder(host, l, r)
    case Gt => Less(host, r, l)
    case _ => Less(host, r, l) || SameOrder(host, r, l)
  }

  lemma {:induction false} StrTrichotomy(a: string, b: string)
    ensures a == b ==> !StrLess(a, b)
    ensures a != b ==> (StrLess(a, b) <==> !StrLess(b, a))
  {
    if a != "" && b != "" {
      StrTrichotomy(a[1..], b[1..]);
      assert a == [a[0]] + a[1..] && b == [b[0]] + b[1..];
    }
  }

  /** The four orderings agree: each is the negation or the mirror of another, for all values. */
  lemma {:induction false} OrderingsAgree(host: Host, l: Value, r: Value)
    ensures Compare(host, Le, l, r) <==> !Compare(host, Lt, r, l)
    ensures Compare(host, Ge, l, r) <==> !Compare(host, Lt, l, r)
    ensures Compare(host, Gt, l, r) <==> Compare(host, Lt, r, l)
    ensures !(Compare(host, Lt, l, r) && Compare(host, Lt, r, l))
  {
    StrTrichotomy(StrOf(host, l), StrOf(host, r));
  }

  function Trunc(x: real): int {
    if x >= 0.0 then x.Floor else -(-x).Floor
  }

  /** Division and remainder by zero give zero; a remainder has the sign of the dividend. */
  function Combine(op: BinOp, x: real, y: real): real {
    match op
    case Add => x + y
    case Sub => x - y
    case Mul => x * y
    case Div => if y == 0.0 then 0.0 else x / y
    case _ => if y == 0.0 then 0.0 else x - y * Trunc(x / y) as real
  }

  function Arithmetic(host: Host, op: BinOp, l: Value, r: Value): Evaluated {
    if op.Add? && (l.VStr? || r.VStr?) then Ok(VStr(StrOf(host, l) + StrOf(host, r)))
    else
      var a, b := NumOf(host, l), NumOf(host, r);
      if a.None? || b.None? then Err(NeedsNumbers(op)) else Ok(VNum(Combine(op, a.value, b.value)))
  }

  // ----- builtins

  const MAX_REGEX_SUBJECT := 20000

  function Matches(host: Host, subject: string, pattern: string): Evaluated {
    if !host.isValidRegex(pattern) then Err(BuiltinFailed("matches"))
    else if RegexSafety.MaxStarHeight(pattern) >= 2 then Err(BuiltinFailed("matches"))
    else if |subject| > MAX_REGEX_SUBJECT then Err(BuiltinFailed("matches"))
    else Ok(VBool(host.regexTest(pattern, subject)))
  }

  predicate Includes(h: string, n: string) {
    exists i | 0 <= i <= |h| :: n <= h[i..]
  }

  function CallBuiltin1(host: Host, name: string, v: Value): Value {
    match name
    case "len" => VNum(LengthOf(v) as real)
    case "lower" => VStr(host.lower(StrOf(host, v)))
    case "upper" => VStr(host.upper(StrOf(host, v)))
    case "trim" => VStr(host.trim(StrOf(host, v)))
    case "words" =>
      var words := host.words(StrOf(host, v));
      VArr(seq(|words|, i requires 0 <= i < |words| => VStr(words[i])))
    case "jsonValid" => VBool(host.jsonParse(StrOf(host, v)).Some?)
    case "jsonParse" =>
      var parsed := host.jsonParse(StrOf(host, v));
      if parsed.Some? then parsed.value else VNull
    case "num" =>
      var n := NumOf(host, v);
      if n.Some? then VNum(n.value) else VNull
    case "abs" =>
      var n := NumOrZero(host, v);
      VNum(if n < 0.0 then -n else n)
    case "round" => VNum((NumOrZero(host, v) + 0.5).Floor as real)
    case _ => VBool(LengthOf(v) == 0)
  }

  function CallBuiltin2(host: Host, name: string, a: Value, b: Value): Evaluated {
    match name
    case "contains" =>
      Ok(VBool(if a.VArr? then exists i | 0 <= i < |a.elems| :: DeepEqual(a.elems[i], b)
               else Includes(StrOf(host, a), StrOf(host, b))))
    case "startsWith" => Ok(VBool(StrOf(host, b) <= StrOf(host, a)))
    case "endsWith" =>
      var s, p := StrOf(host, a), StrOf(host, b);
      Ok(VBool(|p| <= |s| && s[|s| - |p|..] == p))
    case "matches" => Matches(host, StrOf(host, a), StrOf(host, b))
    case "exactMatch" => Ok(VBool(DeepEqual(a, b)))
    case "jsonPath" => Ok(host.jsonPath(a, StrOf(host, b)))
    case "has" => Ok(VBool(a.VObj? && Lookup(a.entries, StrOf(host, b)).Some?))
    case "min" =>
      var x, y := NumOrZero(host, a), NumOrZero(host, b);
      Ok(VNum(if x < y then x else y))
    case "max" =>
      var x, y := NumOrZero(host, a), NumOrZero(host, b);
      Ok(VNum(if x < y then y else x))
    case _ => Ok(if a == VNull then b else a)
  }

  function Arity(name: string): nat {
    if IsBuiltin1(name) then 1 else 2
  }

  function CallBuiltin(host: Host, name: string, args: seq<Value>): Evaluated
    requires |args| == Arity(name)
  {
    if |args| == 1 then Ok(CallBuiltin1(host, name, args[0])) else CallBuiltin2(host, name, args[0], args[1])
  }
}
