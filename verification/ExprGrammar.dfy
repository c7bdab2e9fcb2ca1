/**
 The reading of operators, said without the parser's tables. The binary operators are listed here with their
 texts and in six classes, loosest first; a chain of operands is grouped at the last operator of its loosest
 class, and again on both sides. Prefix operators and property names bind tighter than all of them, a
 conditional looser.
 */
module ExprGrammar {
  import opened Outcome
  import opened ExprSyntax
  import opened Tokenizer
  import opened ExprParser

  // ----- binary operators

  datatype Infix =
    | WordOr | BarBar | WordAnd | AmpAmp | Equal | NotEqual | Below | AtMost | Above | AtLeast
    | Sum | Difference | Product | Quotient | Remainder

  function InfixText(o: Infix): string {
    match o
    case WordOr => "or"
    case BarBar => "||"
    case WordAnd => "and"
    case AmpAmp => "&&"
    case Equal => "=="
    case NotEqual => "!="
    case Below => "<"
    case AtMost => "<="
    case Above => ">"
    case AtLeast => ">="
    case Sum => "+"
    case Difference => "-"
    case Product => "*"
    case Quotient => "/"
    case Remainder => "%"
  }

  function InfixToken(o: Infix): Token {
    match o
    case WordOr => TIdent("or")
    case BarBar => TOp(OrOr)
    case WordAnd => TIdent("and")
    case AmpAmp => TOp(AndAnd)
    case Equal => TOp(EqEq)
    case NotEqual => TOp(NotEq)
    case Below => TOp(LessThan)
    case AtMost => TOp(LtEq)
    case Above => TOp(GreaterThan)
    case AtLeast => TOp(GtEq)
    case Sum => TOp(Plus)
    case Difference => TOp(Minus)
    case Product => TOp(Star)
    case Quotient => TOp(Slash)
    case Remainder => TOp(Percent)
  }

  function InfixNode(o: Infix): BinOp {
    match o
    case WordOr => Or
    case BarBar => Or
    case WordAnd => And
    case AmpAmp => And
    case Equal => Eq
    case NotEqual => Ne
    case Below => Lt
    case AtMost => Le
    case Above => Gt
    case AtLeast => Ge
    case Sum => Add
    case Difference => Sub
    case Product => Mul
    case Quotient => Div
    case Remainder => Mod
  }

  /** The six classes, loosest first. */
  function Class(o: Infix): (c: nat)
    ensures c < 6
  {
    if o in {WordOr, BarBar} then 0
    else if o in {WordAnd, AmpAmp} then 1
    else if o in {Equal, NotEqual} then 2
    else if o in {Below, AtMost, Above, AtLeast} then 3
    else if o in {Sum, Difference} then 4
    else 5
  }

  // ----- operands

  datatype Prefix = MinusSign | BangSign | WordNot

  function PrefixText(p: Prefix): string {
    match p
    case MinusSign => "-"
    case BangSign => "!"
    case WordNot => "not"
  }

  function PrefixToken(p: Prefix): Token {
    match p
    case MinusSign => TOp(Minus)
    case BangSign => TOp(Bang)
    case WordNot => TIdent("not")
  }

  function PrefixNode(p: Prefix): UnaryOp {
    if p.MinusSign? then Neg else Not
  }

  /** One token, and property names after it. */
  datatype Primary = Atom(token: Token) | Dotted(obj: Primary, name: string)

  datatype Operand = Plain(primary: Primary) | Prefixed(prefix: Prefix, arg: Operand)

  /** The tokens that are an operand by themselves, each with its tree. */
  function AtomTree(t: Token): Option<Expr> {
    if t.TNum? then Some(Lit(VNum(NumberOf(t.text))))
    else if t.TStr? then Some(Lit(VStr(t.content)))
    else if t == TIdent("true") then Some(Lit(VBool(true)))
    else if t == TIdent("false") then Some(Lit(VBool(false)))
    else if t == TIdent("null") then Some(Lit(VNull))
    else if t in {TIdent("input"), TIdent("output"), TIdent("expected"), TIdent("metadata")} then Some(Var(t.name))
    else None
  }

  predicate ValidPrimary(p: Primary) {
    match p
    case Atom(t) => AtomTree(t).Some?
    case Dotted(obj, _) => ValidPrimary(obj)
  }

  predicate Valid(o: Operand) {
    match o
    case Plain(p) => ValidPrimary(p)
    case Prefixed(_, arg) => Valid(arg)
  }

  function PrimaryTokens(p: Primary): (ts: seq<Token>)
    ensures ts != []
  {
    match p
    case Atom(t) => [t]
    case Dotted(obj, name) => PrimaryTokens(obj) + [TOp(Dot), TIdent(name)]
  }

  function OperandTokens(o: Operand): (ts: seq<Token>)
    ensures ts != []
  {
    match o
    case Plain(p) => PrimaryTokens(p)
    case Prefixed(prefix, arg) => [PrefixToken(prefix)] + OperandTokens(arg)
  }

  function PrimaryTree(p: Primary): Expr
    requires ValidPrimary(p)
  {
    match p
    case Atom(t) => AtomTree(t).value
    case Dotted(obj, name) => Member(PrimaryTree(obj), name)
  }

  /** Property names first, then the prefixes from the nearest outwards. */
  function OperandTree(o: Operand): Expr
    requires Valid(o)
  {
    match o
    case Plain(p) => PrimaryTree(p)
    case Prefixed(prefix, arg) => Unary(PrefixNode(prefix), OperandTree(arg))
  }

  // ----- chains

  datatype Link = Link(op: Infix, operand: Operand)

  datatype Chain = Chain(first: Operand, links: seq<Link>)

  predicate ValidLinks(links: seq<Link>) {
    forall i | 0 <= i < |links| :: Valid(links[i].operand)
  }

  predicate ValidChain(c: Chain) {
    Valid(c.first) && ValidLinks(c.links)
  }

  function LinksTokens(links: seq<Link>): seq<Token> {
    if links == [] then []
    else [InfixToken(links[0].op)] + (OperandTokens(links[0].operand) + LinksTokens(links[1..]))
  }

  function ChainTokens(c: Chain): seq<Token> {
    OperandTokens(c.first) + LinksTokens(c.links)
  }

  /** An operator and the tree to its right. */
  datatype Term = Term(op: Infix, tree: Expr)

  function Terms(links: seq<Link>): (terms: seq<Term>)
    requires ValidLinks(links)
    ensures |terms| == |links|
  {
    seq(|links|, i requires 0 <= i < |links| => Term(links[i].op, OperandTree(links[i].operand)))
  }

  predicate IsLastLoosest(terms: seq<Term>, k: nat) {
    && k < |terms|
    && (forall j | 0 <= j < |terms| :: Class(terms[k].op) <= Class(terms[j].op))
    && (forall j | k < j < |terms| :: Class(terms[k].op) < Class(terms[j].op))
  }

  /** The last operator of the loosest class there is. */
  function LastLoosest(terms: seq<Term>): (k: nat)
    requires terms != []
    ensures IsLastLoosest(terms, k)
  {
    if |terms| == 1 then 0
    else
      var k := 1 + LastLoosest(terms[1..]);
      if Class(terms[k].op) <= Class(terms[0].op) then k else 0
  }

  /** The tree of a chain: split at the last operator of the loosest class, and so on both sides. */
  function Grouped(first: Expr, terms: seq<Term>): Expr
    decreases |terms|
  {
    if terms == [] then first
    else
      var k := LastLoosest(terms);
      Bin(InfixNode(terms[k].op), Grouped(first, terms[..k]), Grouped(terms[k].tree, terms[k + 1..]))
  }

  function ChainTree(c: Chain): Expr
    requires ValidChain(c)
  {
    Grouped(OperandTree(c.first), Terms(c.links))
  }

  lemma {:induction false} LastLoosestIs(terms: seq<Term>, k: nat)
    requires IsLastLoosest(terms, k)
    ensures LastLoosest(terms) == k
  {
    var j := LastLoosest(terms);
    hide LastLoosest, Class;
    assert IsLastLoosest(terms, j);
  }

  lemma {:induction false} GroupedAt(first: Expr, terms: seq<Term>, k: nat)
    requires IsLastLoosest(terms, k)
    ensures Grouped(first, terms) ==
            Bin(InfixNode(terms[k].op), Grouped(first, terms[..k]), Grouped(terms[k].tree, terms[k + 1..]))
  {
    LastLoosestIs(terms, k);
  }

  /**
   * Reading from the left: an operator takes the tighter ones after it, and what it makes
   * is the first operand of the rest.
   */
  lemma {:induction false} GroupFromLeft(first: Expr, terms: seq<Term>, j: nat)
    requires 1 <= j <= |terms|
    requires forall i | 0 < i < j :: Class(terms[0].op) < Class(terms[i].op)
    requires j < |terms| ==> Class(terms[j].op) <= Class(terms[0].op)
    ensures Grouped(first, terms) ==
            Grouped(Bin(InfixNode(terms[0].op), first, Grouped(terms[0].tree, terms[1..j])), terms[j..])
    decreases |terms|
  {
    hide Class, Grouped, LastLoosest;
    var left := Bin(InfixNode(terms[0].op), first, Grouped(terms[0].tree, terms[1..j]));
    if j == |terms| {
      GroupedAt(first, terms, 0);
      assert terms[1..j] == terms[0 + 1..];
      EmptyGroup(first, terms[..0]);
      EmptyGroup(left, terms[j..]);
    } else {
      var k := LastLoosest(terms);
      assert IsLastLoosest(terms, k);
      assert k >= j;
      GroupedAt(first, terms, k);
      LastLoosestShifts(terms, j, k);
      GroupedAt(left, terms[j..], k - j);
      assert terms[j..][k - j] == terms[k] && terms[j..][k - j + 1..] == terms[k + 1..];
      var before := terms[..k];
      assert before[0] == terms[0] && before[1..j] == terms[1..j] && before[j..] == terms[j..][..k - j];
      GroupFromLeft(first, before, j);
    }
  }

  lemma {:induction false} EmptyGroup(first: Expr, terms: seq<Term>)
    requires terms == []
    ensures Grouped(first, terms) == first
  {
  }

  lemma {:induction false} LastLoosestShifts(terms: seq<Term>, j: nat, k: nat)
    requires IsLastLoosest(terms, k) && j <= k
    ensures IsLastLoosest(terms[j..], k - j)
  {
    hide Class;
  }

  // ----- the parser reads chains so

  /** How many operators a parse from that precedence takes. */
  function Taken(terms: seq<Term>, min: nat): (n: nat)
    ensures n <= |terms|
    ensures forall i | 0 <= i < n :: min <= 1 + Class(terms[i].op)
    ensures n < |terms| ==> 1 + Class(terms[n].op) < min
  {
    if terms == [] || 1 + Class(terms[0].op) < min then 0 else 1 + Taken(terms[1..], min)
  }

  lemma {:induction false} TakenIs(terms: seq<Term>, min: nat, n: nat)
    requires n <= |terms|
    requires forall i | 0 <= i < n :: min <= 1 + Class(terms[i].op)
    requires n < |terms| ==> 1 + Class(terms[n].op) < min
    ensures Taken(terms, min) == n
  {
    hide Class;
    var m := Taken(terms, min);
    hide Taken;
  }

  lemma {:induction false} InfixReads(o: Infix)
    ensures OperatorOf(InfixToken(o)) == Some(InfixNode(o)) && Precedence(InfixNode(o)) == 1 + Class(o)
    ensures InfixToken(o) != TEof && InfixToken(o) != TOp(LParen) && !IsSuffix(InfixToken(o))
  {
  }

  predicate NoEnd(ts: seq<Token>) {
    forall i | 0 <= i < |ts| :: ts[i] != TEof
  }

  lemma {:induction false} TerminatedAfter(ts: seq<Token>, rest: seq<Token>)
    requires NoEnd(ts) && Terminated(rest)
    ensures Terminated(ts + rest)
  {
  }

  lemma {:induction false} TerminatedTail(ts: seq<Token>)
    requires Terminated(ts) && ts[0] != TEof
    ensures Terminated(ts[1..])
  {
  }

  lemma {:induction false} PrimaryHasNoEnd(p: Primary)
    requires ValidPrimary(p)
    ensures NoEnd(PrimaryTokens(p)) && UnaryOf(PrimaryTokens(p)[0]) == None
    ensures NamesKnown(PrimaryTree(p))
  {
    if p.Dotted? {
      PrimaryHasNoEnd(p.obj);
    }
  }

  lemma {:induction false} OperandHasNoEnd(o: Operand)
    requires Valid(o)
    ensures NoEnd(OperandTokens(o)) && NamesKnown(OperandTree(o))
  {
    if o.Plain? {
      PrimaryHasNoEnd(o.primary);
    } else {
      OperandHasNoEnd(o.arg);
    }
  }

  lemma {:induction false} LinksHaveNoEnd(links: seq<Link>)
    requires ValidLinks(links)
    ensures NoEnd(LinksTokens(links))
  {
    if links != [] {
      OperandHasNoEnd(links[0].operand);
      LinksHaveNoEnd(links[1..]);
      InfixReads(links[0].op);
    }
  }

  /** What may follow an operand: nothing that it would take for its own. */
  predicate Follows(rest: seq<Token>) {
    Terminated(rest) && rest[0] != TOp(LParen) && !IsSuffix(rest[0])
  }

  lemma {:induction false} AtomReads(t: Token, rest: seq<Token>, depth: nat)
    requires AtomTree(t).Some? && Terminated(rest) && rest[0] != TOp(LParen)
    ensures Terminated([t] + rest) && NamesKnown(AtomTree(t).value)
    ensures ParsePostfix([t] + rest, depth) == PostfixTail(AtomTree(t).value, rest, depth)
  {
    TerminatedAfter([t], rest);
    var ts := [t] + rest;
    assert ts[1..] == rest && ts[1] == rest[0];
    hide PostfixTail, NumberOf, Terminated, ParseEnclosed, ParseCall;
  }

  lemma {:induction false} Assoc(a: seq<Token>, b: seq<Token>, c: seq<Token>)
    ensures (a + b) + c == a + (b + c)
  {
  }

  lemma {:induction false} NameReads(obj: Expr, name: string, ts: seq<Token>, rest: seq<Token>, depth: nat)
    requires NamesKnown(obj) && Terminated(ts) && Terminated(rest)
    requires |ts| > 2 && ts[0] == TOp(Dot) && ts[1] == TIdent(name) && ts[2..] == rest
    ensures PostfixTail(obj, ts, depth) == PostfixTail(Member(obj, name), rest, depth)
  {
    hide Terminated, ParseEnclosed;
  }

  lemma {:induction false} PrimaryReads(p: Primary, rest: seq<Token>, depth: nat)
    requires ValidPrimary(p) && Terminated(rest) && rest[0] != TOp(LParen)
    ensures Terminated(PrimaryTokens(p) + rest) && NamesKnown(PrimaryTree(p))
    ensures ParsePostfix(PrimaryTokens(p) + rest, depth) == PostfixTail(PrimaryTree(p), rest, depth)
  {
    PrimaryHasNoEnd(p);
    TerminatedAfter(PrimaryTokens(p), rest);
    if p.Atom? {
      AtomReads(p.token, rest, depth);
    } else {
      var dot := [TOp(Dot), TIdent(p.name)];
      TerminatedAfter(dot, rest);
      var ts := dot + rest;
      assert ts[0] == TOp(Dot) && ts[1] == TIdent(p.name) && ts[2..] == rest;
      Assoc(PrimaryTokens(p.obj), dot, rest);
      hide ParsePostfix, PostfixTail, Terminated, UnaryOf;
      PrimaryReads(p.obj, ts, depth);
      NameReads(PrimaryTree(p.obj), p.name, ts, rest, depth);
    }
  }

  lemma {:induction false} PrefixReads(prefix: Prefix, arg: Expr, ts: seq<Token>, inner: seq<Token>, rest: seq<Token>, depth: nat)
    requires Terminated(ts) && Terminated(inner) && ts[0] == PrefixToken(prefix) && ts[1..] == inner
    requires ParseUnary(inner, depth) == Done(arg, rest)
    ensures ParseUnary(ts, depth) == Done(Unary(PrefixNode(prefix), arg), rest)
  {
    hide ParsePostfix, Terminated;
  }

  lemma {:induction false} OperandReads(o: Operand, rest: seq<Token>, depth: nat)
    requires Valid(o) && Follows(rest)
    ensures Terminated(OperandTokens(o) + rest) && NamesKnown(OperandTree(o))
    ensures ParseUnary(OperandTokens(o) + rest, depth) == Done(OperandTree(o), rest)
  {
    OperandHasNoEnd(o);
    TerminatedAfter(OperandTokens(o), rest);
    if o.Plain? {
      PrimaryHasNoEnd(o.primary);
      PrimaryReads(o.primary, rest, depth);
      hide ParsePostfix, Terminated;
    } else {
      hide ParseUnary, Terminated, PrefixToken, PrefixNode;
      OperandReads(o.arg, rest, depth);
      var ts := OperandTokens(o) + rest;
      assert ts[0] == PrefixToken(o.prefix) && ts[1..] == OperandTokens(o.arg) + rest;
      PrefixReads(o.prefix, OperandTree(o.arg), ts, OperandTokens(o.arg) + rest, rest, depth);
    }
  }

  lemma {:induction false} LinksFollow(links: seq<Link>, rest: seq<Token>)
    requires ValidLinks(links) && Follows(rest)
    ensures Follows(LinksTokens(links) + rest)
    ensures links != [] ==> (LinksTokens(links) + rest)[0] == InfixToken(links[0].op)
    ensures links == [] ==> LinksTokens(links) + rest == rest
  {
    LinksHaveNoEnd(links);
    TerminatedAfter(LinksTokens(links), rest);
    if links != [] {
      InfixReads(links[0].op);
    }
  }

  /** A frame reads an operand, and goes on with the operators. */
  lemma {:induction false} FrameReads(o: Operand, rest: seq<Token>, min: nat, depth: nat)
    requires Valid(o) && Follows(rest) && depth + 1 <= 64
    ensures Terminated(OperandTokens(o) + rest) && NamesKnown(OperandTree(o))
    ensures ParseExpression(OperandTokens(o) + rest, min, depth) == ParseTail(OperandTree(o), rest, min, depth + 1)
  {
    OperandReads(o, rest, depth + 1);
    hide ParseUnary, ParseTail, Terminated;
  }

  /** What ends a chain: no operator of any kind. */
  predicate EndsChain(rest: seq<Token>) {
    Follows(rest) && OperatorOf(rest[0]) == None
  }

  lemma {:induction false} TermsRest(links: seq<Link>, n: nat)
    requires ValidLinks(links) && n <= |links|
    ensures ValidLinks(links[n..]) && Terms(links[n..]) == Terms(links)[n..]
  {
  }

  lemma {:induction false} FirstTerm(links: seq<Link>)
    requires ValidLinks(links) && links != []
    ensures Valid(links[0].operand) && Terms(links)[0] == Term(links[0].op, OperandTree(links[0].operand))
  {
  }

  function FirstTerms(terms: seq<Term>, n: nat): seq<Term>
    requires n <= |terms|
  {
    terms[..n]
  }

  lemma {:induction false} GroupedIsKnown(first: Expr, terms: seq<Term>)
    requires NamesKnown(first) && forall i | 0 <= i < |terms| :: NamesKnown(terms[i].tree)
    ensures NamesKnown(Grouped(first, terms))
    decreases |terms|
  {
    if terms != [] {
      var k := LastLoosest(terms);
      assert NamesKnown(terms[k].tree);
      hide LastLoosest, InfixNode, Class, IsLastLoosest;
      GroupedIsKnown(first, terms[..k]);
      GroupedIsKnown(terms[k].tree, terms[k + 1..]);
    }
  }

  lemma {:induction false} TermsAreKnown(links: seq<Link>, first: Expr, n: nat)
    requires ValidLinks(links) && NamesKnown(first) && n <= |links|
    ensures NamesKnown(Grouped(first, FirstTerms(Terms(links), n)))
  {
    hide Grouped, OperandTree, NamesKnown, Valid;
    var terms := FirstTerms(Terms(links), n);
    forall i | 0 <= i < n ensures NamesKnown(terms[i].tree) {
      OperandHasNoEnd(links[i].operand);
    }
    GroupedIsKnown(first, terms);
  }

  /** The operators that a parse from `min` takes: the first, then those it takes to its right, then the others. */
  lemma {:induction false} TakenCount(terms: seq<Term>, min: nat, m: nat, n: nat)
    requires terms != [] && min <= 1 + Class(terms[0].op)
    requires m == Taken(terms[1..], 2 + Class(terms[0].op)) && n == Taken(terms[1 + m..], min)
    ensures Taken(terms, min) == 1 + m + n
    ensures forall i | 0 < i < 1 + m :: Class(terms[0].op) < Class(terms[i].op)
    ensures 1 + m < |terms| ==> Class(terms[1 + m].op) <= Class(terms[0].op)
  {
    var tail, last := terms[1..], terms[1 + m..];
    hide Class, Taken;
    forall i | 0 < i < 1 + m ensures Class(terms[0].op) < Class(terms[i].op) {
      assert terms[i] == tail[i - 1];
    }
    assert 1 + m < |terms| ==> terms[1 + m] == tail[m];
    forall i | 1 + m <= i < 1 + m + n ensures min <= 1 + Class(terms[i].op) {
      assert terms[i] == last[i - 1 - m];
    }
    assert 1 + m + n < |terms| ==> terms[1 + m + n] == last[n];
    TakenIs(terms, min, 1 + m + n);
  }

  lemma {:induction false} TakenGroups(first: Expr, terms: seq<Term>, m: nat, n: nat)
    requires 1 + m + n <= |terms|
    requires forall i | 0 < i < 1 + m :: Class(terms[0].op) < Class(terms[i].op)
    requires 1 + m < |terms| ==> Class(terms[1 + m].op) <= Class(terms[0].op)
    ensures Grouped(first, FirstTerms(terms, 1 + m + n)) ==
            Grouped(Bin(InfixNode(terms[0].op), first, Grouped(terms[0].tree, terms[1..][..m])), terms[1 + m..][..n])
  {
    hide Grouped, Class, InfixNode;
    CutTwice(terms, m, n);
    var taken := FirstTerms(terms, 1 + m + n);
    forall i | 0 <= i < 1 + m + n ensures taken[i] == terms[i] {
    }
    GroupTaken(first, taken, m);
  }

  lemma {:induction false} CutTwice(terms: seq<Term>, m: nat, n: nat)
    requires 1 + m + n <= |terms|
    ensures FirstTerms(terms, 1 + m + n)[1..1 + m] == terms[1..][..m]
    ensures FirstTerms(terms, 1 + m + n)[1 + m..] == terms[1 + m..][..n]
  {
  }

  lemma {:induction false} GroupTaken(first: Expr, taken: seq<Term>, m: nat)
    requires 1 + m <= |taken| && forall i | 0 < i < 1 + m :: Class(taken[0].op) < Class(taken[i].op)
    requires 1 + m < |taken| ==> Class(taken[1 + m].op) <= Class(taken[0].op)
    ensures Grouped(first, taken) ==
            Grouped(Bin(InfixNode(taken[0].op), first, Grouped(taken[0].tree, taken[1..1 + m])), taken[1 + m..])
  {
    hide *;
    GroupFromLeft(first, taken, 1 + m);
  }

  /** The tree of the operators taken, and the tokens that are left then. */
  function TakenTree(left: Expr, links: seq<Link>, min: nat): Expr
    requires ValidLinks(links)
  {
    Grouped(left, FirstTerms(Terms(links), Taken(Terms(links), min)))
  }

  function LeftAfter(links: seq<Link>, rest: seq<Token>, min: nat): seq<Token>
    requires ValidLinks(links)
  {
    LinksTokens(links[Taken(Terms(links), min)..]) + rest
  }

  lemma {:induction false} TakenIsKnown(left: Expr, links: seq<Link>, rest: seq<Token>, min: nat)
    requires ValidLinks(links) && NamesKnown(left) && EndsChain(rest)
    ensures NamesKnown(TakenTree(left, links, min)) && Terminated(LeftAfter(links, rest, min))
    ensures Terminated(LinksTokens(links) + rest)
  {
    var n := Taken(Terms(links), min);
    TermsAreKnown(links, left, n);
    hide Taken, Terms, Grouped, FirstTerms;
    LinksFollow(links[n..], rest);
    LinksFollow(links, rest);
  }

  lemma {:induction false} NothingTaken(left: Expr, links: seq<Link>, rest: seq<Token>, min: nat, depth: nat)
    requires ValidLinks(links) && NamesKnown(left) && EndsChain(rest) && Taken(Terms(links), min) == 0
    ensures Terminated(LinksTokens(links) + rest)
    ensures TakenTree(left, links, min) == left && LeftAfter(links, rest, min) == LinksTokens(links) + rest
    ensures ParseTail(left, LinksTokens(links) + rest, min, depth) == AfterOperators(left, LinksTokens(links) + rest, min, depth)
  {
    LinksFollow(links, rest);
    assert links[0..] == links && Terms(links)[..0] == [];
    if links != [] {
      InfixReads(links[0].op);
    }
    hide InfixToken, InfixNode, Class, LinksTokens, Terms, Precedence, OperatorOf, Terminated;
    TailRound(left, LinksTokens(links) + rest, min, depth);
  }

  lemma {:induction false} LinksStart(links: seq<Link>, rest: seq<Token>)
    requires ValidLinks(links) && links != [] && EndsChain(rest)
    ensures Terminated(LinksTokens(links) + rest) && Follows(LinksTokens(links[1..]) + rest)
    ensures (LinksTokens(links) + rest)[0] == InfixToken(links[0].op)
    ensures (LinksTokens(links) + rest)[1..] == OperandTokens(links[0].operand) + (LinksTokens(links[1..]) + rest)
  {
    LinksFollow(links[1..], rest);
    LinksFollow(links, rest);
    hide Terminated, Follows, OperandTokens, InfixToken;
    ConsConcat(InfixToken(links[0].op), OperandTokens(links[0].operand), LinksTokens(links[1..]), rest);
  }

  lemma {:induction false} ConsConcat(t: Token, a: seq<Token>, b: seq<Token>, c: seq<Token>)
    ensures ([t] + (a + b) + c)[1..] == a + (b + c)
  {
  }

  /** The loop takes the first operator with its right operand. */
  lemma {:induction false} FirstTaken(left: Expr, links: seq<Link>, rest: seq<Token>, after: seq<Token>, min: nat, depth: nat)
    requires ValidLinks(links) && links != [] && NamesKnown(left) && EndsChain(rest) && min <= 1 + Class(links[0].op)
    requires depth + 1 <= 64 && after == LinksTokens(links[1..]) + rest
    ensures Terminated(LinksTokens(links) + rest) && Terminated(after) && NamesKnown(OperandTree(links[0].operand))
    ensures var op := links[0].op;
            var right := ParseTail(OperandTree(links[0].operand), after, 2 + Class(op), depth + 1);
            right.Done? ==>
              ParseTail(left, LinksTokens(links) + rest, min, depth)
              == ParseTail(Bin(InfixNode(op), left, right.node), right.rest, min, depth)
  {
    LinksStart(links, rest);
    OperandHasNoEnd(links[0].operand);
    InfixReads(links[0].op);
    FrameReads(links[0].operand, after, 2 + Class(links[0].op), depth);
    hide *;
    TailRound(left, LinksTokens(links) + rest, min, depth);
  }

  /** One round in terms of what is left after it. */
  lemma {:induction false} RoundReads(left: Expr, links: seq<Link>, rest: seq<Token>, min: nat, depth: nat)
    requires ValidLinks(links) && links != [] && NamesKnown(left) && EndsChain(rest) && min <= 1 + Class(links[0].op)
    requires depth + 1 <= 64
    requires var min' := 2 + Class(links[0].op);
             var after := LinksTokens(links[1..]) + rest;
             var tree := OperandTree(links[0].operand);
             && Terminated(after) && NamesKnown(tree)
             && NamesKnown(TakenTree(tree, links[1..], min')) && Terminated(LeftAfter(links[1..], rest, min'))
             && ParseTail(tree, after, min', depth + 1) == AfterOperators(TakenTree(tree, links[1..], min'), LeftAfter(links[1..], rest, min'), min', depth + 1)
    ensures var min' := 2 + Class(links[0].op);
            var right := TakenTree(OperandTree(links[0].operand), links[1..], min');
            && Terminated(LinksTokens(links) + rest)
            && ParseTail(left, LinksTokens(links) + rest, min, depth)
               == ParseTail(Bin(InfixNode(links[0].op), left, right), LeftAfter(links[1..], rest, min'), min, depth)
  {
    FirstTaken(left, links, rest, LinksTokens(links[1..]) + rest, min, depth);
    hide ParseTail, TakenTree, LeftAfter, LinksTokens, Terminated, OperandTree, InfixNode, Class;
  }

  /** The terms after the first, and those after `m` more. */
  predicate Splits(terms: seq<Term>, tail: seq<Term>, last: seq<Term>, m: nat) {
    terms != [] && 1 + m <= |terms| && tail == terms[1..] && last == terms[1 + m..]
  }

  lemma {:induction false} TermsInSteps(links: seq<Link>, tail: seq<Link>, last: seq<Link>, m: nat)
    requires ValidLinks(links) && links != [] && tail == links[1..] && ValidLinks(tail) && m <= |tail| && last == tail[m..] && ValidLinks(last)
    ensures Terms(links)[0] == Term(links[0].op, OperandTree(links[0].operand)) && Valid(links[0].operand)
    ensures Splits(Terms(links), Terms(tail), Terms(last), m)
  {
    FirstTerm(links);
    TermsRest(links, 1);
    TermsRest(tail, m);
    hide Terms, ValidLinks;
  }

  lemma {:induction false} GroupInSteps(left: Expr, terms: seq<Term>, tail: seq<Term>, last: seq<Term>, min: nat, m: nat, n: nat)
    requires Splits(terms, tail, last, m) && min <= 1 + Class(terms[0].op)
    requires m == Taken(tail, 2 + Class(terms[0].op)) && n == Taken(last, min)
    ensures Taken(terms, min) == 1 + m + n && m <= |tail| && n <= |last|
    ensures Grouped(left, FirstTerms(terms, 1 + m + n))
         == Grouped(Bin(InfixNode(terms[0].op), left, Grouped(terms[0].tree, FirstTerms(tail, m))), FirstTerms(last, n))
  {
    hide Taken, Grouped, Class, InfixNode;
    TakenCount(terms, min, m, n);
    TakenGroups(left, terms, m, n);
  }

  lemma {:induction false} TreeInSteps(left: Expr, links: seq<Link>, tail: seq<Link>, last: seq<Link>, op: Infix, tree: Expr, min: nat, m: nat)
    requires ValidLinks(links) && ValidLinks(tail) && ValidLinks(last) && links != []
    requires Terms(links)[0] == Term(op, tree) && Splits(Terms(links), Terms(tail), Terms(last), m)
    requires min <= 1 + Class(op) && m == Taken(Terms(tail), 2 + Class(op))
    ensures Taken(Terms(links), min) == 1 + m + Taken(Terms(last), min)
    ensures TakenTree(left, links, min) == TakenTree(Bin(InfixNode(op), left, TakenTree(tree, tail, 2 + Class(op))), last, min)
  {
    hide Taken, Grouped, Class, InfixNode, Terms, FirstTerms, Splits, ValidLinks, Valid;
    GroupInSteps(left, Terms(links), Terms(tail), Terms(last), min, m, Taken(Terms(last), min));
  }

  lemma {:induction false} RestInSteps(links: seq<Link>, tail: seq<Link>, last: seq<Link>, rest: seq<Token>, min: nat, m: nat)
    requires ValidLinks(links) && links != [] && tail == links[1..] && ValidLinks(tail) && m <= |tail|
    requires last == tail[m..] && ValidLinks(last) && Taken(Terms(links), min) == 1 + m + Taken(Terms(last), min)
    ensures LeftAfter(links, rest, min) == LeftAfter(last, rest, min)
  {
    var n := Taken(Terms(last), min);
    assert links[1 + m + n..] == last[n..];
    hide Taken, Terms, LinksTokens;
  }

  /**
   * The operator loop from any precedence takes the operators of at least that
   * class, grouped, and leaves the rest.
   */
  lemma {:induction false} TailReads(left: Expr, links: seq<Link>, rest: seq<Token>, min: nat, depth: nat)
    requires ValidLinks(links) && NamesKnown(left) && EndsChain(rest) && min <= 7 && depth + 7 - min <= 64
    ensures Terminated(LinksTokens(links) + rest)
    ensures NamesKnown(TakenTree(left, links, min)) && Terminated(LeftAfter(links, rest, min))
    ensures ParseTail(left, LinksTokens(links) + rest, min, depth)
         == AfterOperators(TakenTree(left, links, min), LeftAfter(links, rest, min), min, depth)
    decreases |links|
  {
    TakenIsKnown(left, links, rest, min);
    if Taken(Terms(links), min) == 0 {
      NothingTaken(left, links, rest, min, depth);
    } else {
      var op, tree, min' := links[0].op, OperandTree(links[0].operand), 2 + Class(links[0].op);
      assert Terms(links)[0].op == op;
      assert min <= 1 + Class(op);
      OperandHasNoEnd(links[0].operand);
      var tail := links[1..];
      var m := Taken(Terms(tail), min');
      var last := tail[m..];
      hide ParseTail, TakenTree, LeftAfter, LinksTokens, Terminated, OperandTree, InfixNode, Terms, Taken, OperatorOf, AfterOperators;
      TermsInSteps(links, tail, last, m);
      TreeInSteps(left, links, tail, last, op, tree, min, m);
      RestInSteps(links, tail, last, rest, min, m);
      TailReads(tree, tail, rest, min', depth + 1);
      RoundReads(left, links, rest, min, depth);
      TailReads(Bin(InfixNode(op), left, TakenTree(tree, tail, min')), last, rest, min, depth);
    }
  }

  lemma {:induction false} AllTaken(left: Expr, links: seq<Link>, rest: seq<Token>)
    requires ValidLinks(links)
    ensures TakenTree(left, links, 0) == Grouped(left, Terms(links)) && LeftAfter(links, rest, 0) == rest
  {
    TakenIs(Terms(links), 0, |links|);
    assert FirstTerms(Terms(links), |links|) == Terms(links) && LinksTokens(links[|links|..]) + rest == rest;
    hide Taken, Class, Grouped, Terms;
  }

  lemma {:induction false} OperandKnown(o: Operand)
    requires Valid(o)
    ensures NamesKnown(OperandTree(o))
  {
    OperandHasNoEnd(o);
  }

  lemma {:induction false} LinksRead(o: Operand, links: seq<Link>, tail: seq<Token>, rest: seq<Token>, depth: nat)
    requires Valid(o) && ValidLinks(links) && EndsChain(rest) && depth <= 56 && tail == LinksTokens(links) + rest
    ensures Terminated(OperandTokens(o) + tail) && Terminated(rest) && NamesKnown(Grouped(OperandTree(o), Terms(links)))
    ensures ParseExpression(OperandTokens(o) + tail, 0, depth)
         == AfterOperators(Grouped(OperandTree(o), Terms(links)), rest, 0, depth + 1)
  {
    hide *;
    OperandKnown(o);
    AllRead(OperandTree(o), links, tail, rest, depth + 1);
    FrameReads(o, tail, 0, depth);
  }

  lemma {:induction false} AllRead(left: Expr, links: seq<Link>, tail: seq<Token>, rest: seq<Token>, depth: nat)
    requires ValidLinks(links) && NamesKnown(left) && EndsChain(rest) && depth <= 57 && tail == LinksTokens(links) + rest
    ensures Follows(tail) && Terminated(tail) && Terminated(rest) && NamesKnown(Grouped(left, Terms(links)))
    ensures ParseTail(left, tail, 0, depth) == AfterOperators(Grouped(left, Terms(links)), rest, 0, depth)
  {
    assert Terminated(rest);
    LinksFollow(links, rest);
    hide *;
    AllTaken(left, links, rest);
    TailReads(left, links, rest, 0, depth);
  }

  /** A parse of a whole expression groups the chain it starts with, and then looks for a conditional. */
  lemma {:induction false} ChainReads(c: Chain, rest: seq<Token>, depth: nat)
    requires ValidChain(c) && EndsChain(rest) && depth <= 56
    ensures Terminated(ChainTokens(c) + rest) && Terminated(rest) && NamesKnown(ChainTree(c))
    ensures ParseExpression(ChainTokens(c) + rest, 0, depth) == AfterOperators(ChainTree(c), rest, 0, depth + 1)
  {
    Assoc(OperandTokens(c.first), LinksTokens(c.links), rest);
    assert Terminated(rest);
    ChainParts(c);
    LinksRead(c.first, c.links, LinksTokens(c.links) + rest, rest, depth);
    hide *;
  }

  lemma {:induction false} ChainParts(c: Chain)
    requires ValidChain(c)
    ensures ChainTokens(c) == OperandTokens(c.first) + LinksTokens(c.links)
    ensures ChainTree(c) == Grouped(OperandTree(c.first), Terms(c.links))
  {
  }

  lemma {:induction false} ChainEnds(c: Chain, rest: seq<Token>, depth: nat)
    requires ValidChain(c) && EndsChain(rest) && rest[0] != TOp(Question) && depth <= 56
    ensures Terminated(ChainTokens(c) + rest) && NamesKnown(ChainTree(c))
    ensures ParseExpression(ChainTokens(c) + rest, 0, depth) == Done(ChainTree(c), rest)
  {
    ChainReads(c, rest, depth);
    hide ParseExpression, ChainTokens, ChainTree, Terminated, OperatorOf;
  }

  /**
   * Every chain of operands, of any length and with any operators, parses to its
   * grouping: split at the last operator of the loosest class, and again on both sides.
   */
  lemma {:induction false} ParseOfChain(c: Chain)
    requires ValidChain(c)
    ensures Terminated(ChainTokens(c) + [TEof]) && ParseTokens(ChainTokens(c) + [TEof]) == Ok(ChainTree(c))
  {
    ChainEnds(c, [TEof], 0);
    hide ParseExpression, ChainTokens, ChainTree, Terminated;
  }

  /** Of two operators the second takes the middle operand exactly when its class is the tighter one. */
  lemma {:induction false} TwoOperators(x: Operand, o1: Infix, y: Operand, o2: Infix, z: Operand)
    requires Valid(x) && Valid(y) && Valid(z)
    ensures var ts := OperandTokens(x) + [InfixToken(o1)] + OperandTokens(y) + [InfixToken(o2)] + OperandTokens(z) + [TEof];
            var X, Y, Z := OperandTree(x), OperandTree(y), OperandTree(z);
            && Terminated(ts)
            && ParseTokens(ts) == Ok(if Class(o1) < Class(o2) then Bin(InfixNode(o1), X, Bin(InfixNode(o2), Y, Z))
                                     else Bin(InfixNode(o2), Bin(InfixNode(o1), X, Y), Z))
  {
    var l1, l2 := Link(o1, y), Link(o2, z);
    var c := Chain(x, [l1, l2]);
    ParseOfChain(c);
    TwoLinks(x, l1, l2);
    hide ParseTokens, ChainTokens, OperandTokens, OperandTree, Terminated, InfixToken, InfixNode, Class, Grouped;
    TwoGrouped(OperandTree(x), Term(o1, OperandTree(y)), Term(o2, OperandTree(z)));
    assert Terms(c.links) == [Term(o1, OperandTree(y)), Term(o2, OperandTree(z))];
  }

  lemma {:induction false} TwoLinks(x: Operand, l1: Link, l2: Link)
    ensures ChainTokens(Chain(x, [l1, l2])) + [TEof] ==
            OperandTokens(x) + [InfixToken(l1.op)] + OperandTokens(l1.operand) + [InfixToken(l2.op)] + OperandTokens(l2.operand) + [TEof]
  {
    hide OperandTokens, InfixToken;
    assert [l1, l2][1..] == [l2] && [l2][1..] == [];
    assert LinksTokens([l2]) == [InfixToken(l2.op)] + (OperandTokens(l2.operand) + []);
  }

  lemma {:induction false} TwoGrouped(x: Expr, t: Term, u: Term)
    ensures Grouped(x, [t, u]) == if Class(t.op) < Class(u.op) then Bin(InfixNode(t.op), x, Bin(InfixNode(u.op), t.tree, u.tree))
                                  else Bin(InfixNode(u.op), Bin(InfixNode(t.op), x, t.tree), u.tree)
  {
    var both := [t, u];
    assert both[0] == t && both[1] == u && both[..0] == [] && both[..1] == [t] && both[1..] == [u] && both[2..] == [];
    OneGrouped(x, t);
    OneGrouped(t.tree, u);
    EmptyGroup(x, []);
    EmptyGroup(u.tree, []);
    hide Class, InfixNode, LastLoosest, Grouped;
    GroupedAt(x, both, if Class(t.op) < Class(u.op) then 0 else 1);
  }

  lemma {:induction false} OneGrouped(x: Expr, t: Term)
    ensures Grouped(x, [t]) == Bin(InfixNode(t.op), x, t.tree)
  {
    GroupedAt(x, [t], 0);
    assert [t][..0] == [] && [t][1..] == [];
  }

  // ----- the conditional

  /** A conditional is looser than every operator. */
  lemma {:induction false} ConditionalReads(c: Chain, a: Chain, ts: seq<Token>, b: Expr, rest: seq<Token>, depth: nat)
    requires ValidChain(c) && ValidChain(a) && depth <= 55
    requires Terminated(ts) && Terminated(rest) && NamesKnown(b) && ParseExpression(ts, 0, depth + 1) == Done(b, rest)
    ensures var all := ChainTokens(c) + ([TOp(Question)] + (ChainTokens(a) + ([TOp(Colon)] + ts)));
            Terminated(all) && ParseExpression(all, 0, depth) == Done(Cond(ChainTree(c), ChainTree(a), b), rest)
  {
    var second := [TOp(Colon)] + ts;
    ColonThen(ts);
    hide *;
    ChainEnds(a, second, depth + 1);
    BranchesRead(c, ChainTokens(a) + second, ChainTree(a), second, b, rest, depth);
  }

  lemma {:induction false} ColonThen(ts: seq<Token>)
    requires Terminated(ts)
    ensures var second := [TOp(Colon)] + ts;
            EndsChain(second) && Terminated(second) && second[0] == TOp(Colon) && second[1..] == ts
  {
    TerminatedAfter([TOp(Colon)], ts);
  }

  lemma {:induction false} BranchesRead(c: Chain, ts: seq<Token>, a: Expr, second: seq<Token>, b: Expr, rest: seq<Token>, depth: nat)
    requires ValidChain(c) && depth <= 55 && NamesKnown(a) && NamesKnown(b)
    requires Terminated(ts) && Terminated(second) && second[0] == TOp(Colon) && Terminated(second[1..]) && Terminated(rest)
    requires ParseExpression(ts, 0, depth + 1) == Done(a, second) && ParseExpression(second[1..], 0, depth + 1) == Done(b, rest)
    ensures var all := ChainTokens(c) + ([TOp(Question)] + ts);
            Terminated(all) && ParseExpression(all, 0, depth) == Done(Cond(ChainTree(c), a, b), rest)
  {
    var first := [TOp(Question)] + ts;
    TerminatedAfter([TOp(Question)], ts);
    assert first[0] == TOp(Question) && first[1..] == ts;
    assert EndsChain(first);
    ChainReads(c, first, depth);
    hide ParseExpression, ChainTokens, ChainTree, Terminated, OperatorOf, ValidChain, EndsChain;
  }

  /** So a conditional of chains parses to the conditional of their groupings. */
  lemma {:induction false} ParseOfConditional(c: Chain, a: Chain, b: Chain)
    requires ValidChain(c) && ValidChain(a) && ValidChain(b)
    ensures var ts := ChainTokens(c) + ([TOp(Question)] + (ChainTokens(a) + ([TOp(Colon)] + (ChainTokens(b) + [TEof]))));
            Terminated(ts) && ParseTokens(ts) == Ok(Cond(ChainTree(c), ChainTree(a), ChainTree(b)))
  {
    ChainEnds(b, [TEof], 1);
    ConditionalReads(c, a, ChainTokens(b) + [TEof], ChainTree(b), [TEof], 0);
    hide ParseExpression, ChainTokens, ChainTree, Terminated, OperatorOf;
  }

  /** A second conditional after the colon belongs to the first one's last part. */
  lemma {:induction false} ConditionalsNestRight(c: Chain, a: Chain, d: Chain, e: Chain, f: Chain)
    requires ValidChain(c) && ValidChain(a) && ValidChain(d) && ValidChain(e) && ValidChain(f)
    ensures var last := ChainTokens(d) + ([TOp(Question)] + (ChainTokens(e) + ([TOp(Colon)] + (ChainTokens(f) + [TEof]))));
            var ts := ChainTokens(c) + ([TOp(Question)] + (ChainTokens(a) + ([TOp(Colon)] + last)));
            && Terminated(ts)
            && ParseTokens(ts) == Ok(Cond(ChainTree(c), ChainTree(a), Cond(ChainTree(d), ChainTree(e), ChainTree(f))))
  {
    assert EndsChain([TEof]);
    hide ParseExpression, ChainTokens, ChainTree, Terminated, OperatorOf, ValidChain, EndsChain;
    ChainEnds(f, [TEof], 2);
    ConditionalReads(d, e, ChainTokens(f) + [TEof], ChainTree(f), [TEof], 1);
    var last := ChainTokens(d) + ([TOp(Question)] + (ChainTokens(e) + ([TOp(Colon)] + (ChainTokens(f) + [TEof]))));
    ChainKnown(d);
    ChainKnown(e);
    ChainKnown(f);
    ConditionalReads(c, a, last, Cond(ChainTree(d), ChainTree(e), ChainTree(f)), [TEof], 0);
  }

  lemma {:induction false} ChainKnown(c: Chain)
    requires ValidChain(c)
    ensures NamesKnown(ChainTree(c))
  {
    OperandHasNoEnd(c.first);
    TermsAreKnown(c.links, OperandTree(c.first), |c.links|);
    assert FirstTerms(Terms(c.links), |c.links|) == Terms(c.links);
  }
}
