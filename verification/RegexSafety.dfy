/**
 The static star-height scan that guards user-written patterns, and the proof that on the text of a
 regular expression it computes the star height of the expression's tree.

 The trees are the patterns in which an unescaped `{` outside a character class always opens a
 quantifier: literals, escapes, classes, groups of every kind the scan knows (plain, non-capturing,
 lookaround, named), concatenation, alternation, and one quantifier an atom, possibly lazy.
 */
module RegexSafety {
  import opened Basics

  // ----- the scan, as a function of the text not yet read

  datatype Scan = Scan(height: nat, rest: string)

  function Drop(s: string, n: nat): (r: string)
    ensures |r| <= |s| && (0 < n && s != "" ==> |r| < |s|)
  {
    if n <= |s| then s[n..] else ""
  }

  predicate StartsWith(s: string, c: char) {
    s != "" && s[0] == c
  }

  /** The text after a character class whose opening bracket was just read. */
  function SkipClass(s: string): (r: string)
    ensures |r| <= |s|
    decreases |s|
  {
    if s == "" then ""
    else if s[0] == ']' then s[1..]
    else if s[0] == '\\' then SkipClass(Drop(s, 2))
    else SkipClass(s[1..])
  }

  /** The text after the first `c`, or nothing. */
  function SkipPast(s: string, c: char): (r: string)
    ensures |r| <= |s|
  {
    if s == "" then "" else if s[0] == c then s[1..] else SkipPast(s[1..], c)
  }

  /** The text after the group-type prefix of a group whose parenthesis was just read. */
  function SkipPrefix(s: string): (r: string)
    ensures |r| <= |s|
  {
    if !StartsWith(s, '?') then s
    else
      var t := s[1..];
      if StartsWith(t, '<') then
        if 1 < |t| && (t[1] == '=' || t[1] == '!') then t[2..] else SkipPast(t, '>')
      else if t != "" && (t[0] == ':' || t[0] == '=' || t[0] == '!') then t[1..]
      else t
  }

  /** The position of the first `c`, or the length of the text if there is none. */
  function IndexOf(s: string, c: char): (i: nat)
    ensures i <= |s| && (i < |s| ==> s[i] == c)
    ensures forall k | 0 <= k < i :: s[k] != c
  {
    if s == "" then 0 else if s[0] == c then 0 else 1 + IndexOf(s[1..], c)
  }

  /** One level of nesting: the greatest height so far, and the height of the last atom if there is one. */
  function Walk(s: string, best: nat, last: nat, haveAtom: bool): (r: Scan)
    ensures |r.rest| <= |s|
    decreases |s|, 0
  {
    var flushed := if haveAtom then Max(best, last) else best;
    if s == "" || s[0] == ')' then Scan(flushed, s)
    else match s[0]
      case '|' => Walk(s[1..], flushed, 0, false)
      case '\\' => Walk(Drop(s, 2), flushed, 0, true)
      case '[' => Walk(SkipClass(s[1..]), flushed, 0, true)
      case '(' =>
        var inner := Walk(SkipPrefix(s[1..]), 0, 0, false);
        Walk(if StartsWith(inner.rest, ')') then inner.rest[1..] else inner.rest, flushed, inner.height, true)
      case '*' => Repeat(s[1..], best, last, haveAtom)
      case '+' => Repeat(s[1..], best, last, haveAtom)
      case '{' =>
        var close := IndexOf(s, '}');
        if close == |s| then Walk(s[1..], flushed, 0, true)
        else if ',' in s[1..close] then Repeat(s[close + 1..], best, last, haveAtom)
        else Walk(s[close + 1..], best, last, haveAtom)
      case '?' => Walk(s[1..], best, last, haveAtom)
      case _ => Walk(s[1..], flushed, 0, true)
  }

  /** A repetition raises the last atom's height, if there is an atom. */
  function Repeat(s: string, best: nat, last: nat, haveAtom: bool): (r: Scan)
    ensures |r.rest| <= |s|
    decreases |s|, 1
  {
    if haveAtom then Walk(s, Max(best, last + 1), last + 1, true) else Walk(s, best, last, false)
  }

  /** The greatest height so far once the pending atom is counted. */
  function Flushed(best: nat, last: nat, haveAtom: bool): nat {
    if haveAtom then Max(best, last) else best
  }

  predicate IsMark(c: char) {
    c == '*' || c == '+' || c == '?' || c == '{'
  }

  /** One mark: the text behind it, whether it repeats, and whether it is only a brace that opens nothing. */
  lemma {:induction false} WalkMark(s: string, best: nat, last: nat, haveAtom: bool)
    requires s != "" && IsMark(s[0])
    ensures var close := IndexOf(s, '}');
            Walk(s, best, last, haveAtom) ==
            if s[0] != '{' then
              if s[0] == '?' then Walk(s[1..], best, last, haveAtom) else Repeat(s[1..], best, last, haveAtom)
            else if close == |s| then Walk(s[1..], Flushed(best, last, haveAtom), 0, true)
            else if ',' in s[1..close] then Repeat(s[close + 1..], best, last, haveAtom)
            else Walk(s[close + 1..], best, last, haveAtom)
  {
    hide IndexOf, Repeat, SkipClass, SkipPrefix;
  }

  function MaxStarHeight(src: string): nat {
    Walk(src, 0, 0, false).height
  }

  // ----- regular expressions and their text

  /** A quantifier, `Once` being the lack of one. */
  datatype Quant = Once | Star | Plus | Opt | Exactly(n: string) | AtLeast(n: string) | Between(n: string, m: string)

  datatype ClassItem = Char(c: char) | ClassEscape(c: char)

  datatype GroupKind = Capture | NonCapture | LookAhead | NotAhead | LookBehind | NotBehind | Named(name: string)

  /** A pattern is a choice of branches, and a branch a sequence of quantified atoms. */
  datatype Atom =
    | Literal(c: char)
    | Escape(c: char)
    | Class(items: seq<ClassItem>)
    | Group(kind: GroupKind, branches: seq<Branch>)

  datatype Piece = Piece(atom: Atom, quant: Quant, lazy: bool)

  datatype Branch = Branch(pieces: seq<Piece>)

  predicate IsDigits(s: string) {
    s != "" && forall i | 0 <= i < |s| :: '0' <= s[i] <= '9'
  }

  predicate ValidQuant(q: Quant) {
    match q
    case Exactly(n) => IsDigits(n)
    case AtLeast(n) => IsDigits(n)
    case Between(n, m) => IsDigits(n) && IsDigits(m)
    case _ => true
  }

  predicate IsSpecial(c: char) {
    || c == '(' || c == ')' || c == '[' || c == '{' || c == '|' || c == '\\' || c == '*' || c == '+' || c == '?'
  }

  predicate ValidKind(k: GroupKind) {
    k.Named? ==> k.name != "" && k.name[0] != '=' && k.name[0] != '!' && forall i | 0 <= i < |k.name| :: k.name[i] != '>'
  }

  predicate ValidItem(item: ClassItem) {
    item.Char? ==> item.c != ']' && item.c != '\\'
  }

  /** The domain: at most one quantifier an atom, well-formed counts, and special characters escaped. */
  predicate ValidAtom(a: Atom)
    decreases a
  {
    match a
    case Literal(c) => !IsSpecial(c)
    case Escape(_) => true
    case Class(items) => forall i | 0 <= i < |items| :: ValidItem(items[i])
    case Group(kind, branches) => ValidKind(kind) && ValidBranches(branches)
  }

  predicate ValidBranches(branches: seq<Branch>)
    decreases branches
  {
    branches != [] && forall i | 0 <= i < |branches| :: ValidBranch(branches[i])
  }

  predicate ValidBranch(b: Branch)
    decreases b
  {
    ValidPieces(b.pieces)
  }

  predicate ValidPieces(ps: seq<Piece>)
    decreases ps
  {
    forall i | 0 <= i < |ps| :: ValidPiece(ps[i])
  }

  predicate ValidPiece(p: Piece)
    decreases p
  {
    ValidAtom(p.atom) && ValidQuant(p.quant) && (p.lazy ==> p.quant != Once)
  }

  function QuantText(q: Quant): string {
    match q
    case Once => ""
    case Star => "*"
    case Plus => "+"
    case Opt => "?"
    case _ => "{" + CountBody(q) + "}"
  }

  /** What stands between the braces of a count. */
  function CountBody(q: Quant): string {
    match q
    case Exactly(n) => n
    case AtLeast(n) => n + ","
    case Between(n, m) => n + "," + m
    case _ => ""
  }

  function ItemText(item: ClassItem): string {
    match item
    case Char(c) => [c]
    case ClassEscape(c) => ['\\', c]
  }

  function ItemsText(items: seq<ClassItem>): string {
    if items == [] then "" else ItemText(items[0]) + ItemsText(items[1..])
  }

  function KindText(k: GroupKind): string {
    match k
    case Capture => ""
    case NonCapture => "?:"
    case LookAhead => "?="
    case NotAhead => "?!"
    case LookBehind => "?<="
    case NotBehind => "?<!"
    case Named(name) => "?<" + name + ">"
  }

  /** The text of each form, followed by `rest`. */
  function AtomText(a: Atom, rest: string): string
    decreases a
  {
    match a
    case Literal(c) => [c] + rest
    case Escape(c) => ['\\', c] + rest
    case Class(items) => "[" + (ItemsText(items) + ("]" + rest))
    case Group(kind, branches) => "(" + (KindText(kind) + BranchesText(branches, ")" + rest))
  }

  function PieceText(p: Piece, rest: string): string
    decreases p
  {
    AtomText(p.atom, QuantText(p.quant) + (LazyText(p.lazy) + rest))
  }

  function LazyText(lazy: bool): string {
    if lazy then "?" else ""
  }

  function PiecesText(ps: seq<Piece>, rest: string): string
    decreases ps
  {
    if ps == [] then rest else PieceText(ps[0], PiecesText(ps[1..], rest))
  }

  function BranchText(b: Branch, rest: string): string
    decreases b
  {
    PiecesText(b.pieces, rest)
  }

  function BranchesText(branches: seq<Branch>, rest: string): string
    decreases branches
  {
    if branches == [] then rest
    else if |branches| == 1 then BranchText(branches[0], rest)
    else BranchText(branches[0], "|" + BranchesText(branches[1..], rest))
  }

  function Text(branches: seq<Branch>): string {
    BranchesText(branches, "")
  }

  // ----- star height

  predicate Repeats(q: Quant) {
    q.Star? || q.Plus? || q.AtLeast? || q.Between?
  }

  /** Alternation and concatenation take the greatest height; a repetition adds one. */
  function AtomHeight(a: Atom): nat
    decreases a
  {
    if a.Group? then BranchesHeight(a.branches) else 0
  }

  function PieceHeight(p: Piece): nat
    decreases p
  {
    AtomHeight(p.atom) + if Repeats(p.quant) then 1 else 0
  }

  function PiecesHeight(ps: seq<Piece>): nat
    decreases ps
  {
    if ps == [] then 0 else Max(PieceHeight(ps[0]), PiecesHeight(ps[1..]))
  }

  function BranchHeight(b: Branch): nat
    decreases b
  {
    PiecesHeight(b.pieces)
  }

  function BranchesHeight(branches: seq<Branch>): nat
    decreases branches
  {
    if branches == [] then 0 else Max(BranchHeight(branches[0]), BranchesHeight(branches[1..]))
  }

  // ----- the scan computes the star height

  predicate Closing(rest: string) {
    rest == "" || rest[0] == ')'
  }

  lemma {:induction false} WalkItems(items: seq<ClassItem>, rest: string)
    requires forall i | 0 <= i < |items| :: ValidItem(items[i])
    ensures SkipClass(ItemsText(items) + ("]" + rest)) == rest
  {
    var s := ItemsText(items) + ("]" + rest);
    if items == [] {
      assert s == "]" + rest;
    } else {
      WalkItems(items[1..], rest);
      var tail := ItemsText(items[1..]) + ("]" + rest);
      assert s == ItemText(items[0]) + tail;
      match items[0] {
        case Char(_) => assert s[1..] == tail;
        case ClassEscape(_) => assert s[2..] == tail;
      }
    }
  }

  lemma {:induction false} SkipPastName(name: string, rest: string)
    requires forall i | 0 <= i < |name| :: name[i] != '>'
    ensures SkipPast(name + (">" + rest), '>') == rest
  {
    var s := name + (">" + rest);
    if name == "" {
      assert s == ">" + rest;
    } else {
      assert s[1..] == name[1..] + (">" + rest);
      SkipPastName(name[1..], rest);
    }
  }

  /** The prefix of a group is skipped exactly; a capturing group has none, and its text cannot start one. */
  lemma {:induction false} SkipKind(kind: GroupKind, rest: string)
    requires ValidKind(kind) && !StartsWith(rest, '?')
    ensures SkipPrefix(KindText(kind) + rest) == rest
  {
    var s := KindText(kind) + rest;
    match kind {
      case Capture => assert s == rest;
      case NonCapture => assert s[1..][1..] == rest;
      case LookAhead => assert s[1..][1..] == rest;
      case NotAhead => assert s[1..][1..] == rest;
      case LookBehind => assert s[1..][2..] == rest;
      case NotBehind => assert s[1..][2..] == rest;
      case Named(name) =>
        var t := s[1..];
        assert t == "<" + (name + (">" + rest));
        assert t[1] == name[0];
        assert name + (">" + rest) == t[1..];
        SkipPastName(name, rest);
        assert SkipPast(t, '>') == SkipPast(t[1..], '>');
    }
  }

  lemma {:induction false} IndexOfAfter(n: string, rest: string)
    requires forall i | 0 <= i < |n| :: n[i] != '}'
    ensures IndexOf(n + ("}" + rest), '}') == |n|
  {
    var s := n + ("}" + rest);
    if n == "" {
      assert s[0] == '}';
    } else {
      assert s[1..] == n[1..] + ("}" + rest);
      IndexOfAfter(n[1..], rest);
    }
  }

  /** A count in braces repeats exactly when it has a comma. */
  lemma {:induction false} WalkCount(body: string, rest: string, best: nat, last: nat)
    requires forall i | 0 <= i < |body| :: body[i] != '}'
    ensures Walk("{" + body + "}" + rest, best, last, true)
         == if ',' in body then Walk(rest, Max(best, last + 1), last + 1, true) else Walk(rest, best, last, true)
  {
    var s := "{" + body + "}" + rest;
    var n := "{" + body;
    assert s == n + ("}" + rest);
    IndexOfAfter(n, rest);
    WalkMark(s, best, last, true);
    hide Walk, IndexOf;
    var close := IndexOf(s, '}');
    assert s[1..close] == body;
    assert s[close + 1..] == rest;
  }

  lemma {:induction false} CountHasComma(q: Quant)
    requires ValidQuant(q) && (q.Exactly? || q.AtLeast? || q.Between?)
    ensures forall i | 0 <= i < |CountBody(q)| :: CountBody(q)[i] != '}'
    ensures ',' in CountBody(q) <==> Repeats(q)
  {
    var body := CountBody(q);
    if !q.Exactly? {
      assert body[|q.n|] == ',';
    }
  }

  lemma {:induction false} WalkQuant(q: Quant, rest: string, best: nat, last: nat)
    requires ValidQuant(q)
    ensures Walk(QuantText(q) + rest, best, last, true)
         == if Repeats(q) then Walk(rest, Max(best, last + 1), last + 1, true) else Walk(rest, best, last, true)
  {
    var s := QuantText(q) + rest;
    match q {
      case Once => assert s == rest;
      case Star => assert s[1..] == rest;
      case Plus => assert s[1..] == rest;
      case Opt => assert s[1..] == rest;
      case _ =>
        hide Walk, CountBody;
        CountHasComma(q);
        WalkCount(CountBody(q), rest, best, last);
    }
  }

  /** An atom is consumed whole, and leaves its height pending. */
  lemma {:induction false} WalkAtom(a: Atom, rest: string, best: nat, last: nat, haveAtom: bool)
    requires ValidAtom(a)
    ensures Walk(AtomText(a, rest), best, last, haveAtom)
         == Walk(rest, Flushed(best, last, haveAtom), AtomHeight(a), true)
    decreases a
  {
    var s := AtomText(a, rest);
    match a {
      case Literal(_) => assert s[1..] == rest;
      case Escape(_) => assert s[2..] == rest;
      case Class(items) =>
        WalkItems(items, rest);
        assert s[1..] == ItemsText(items) + ("]" + rest);
      case Group(kind, branches) =>
        var inner := BranchesText(branches, ")" + rest);
        NoQuestionMark(branches, ")" + rest);
        SkipKind(kind, inner);
        assert s[1..] == KindText(kind) + inner;
        WalkBranches(branches, ")" + rest, 0);
        assert (")" + rest)[1..] == rest;
    }
  }

  lemma {:induction false} WalkLazy(lazy: bool, rest: string, best: nat, last: nat)
    ensures Walk(LazyText(lazy) + rest, best, last, true) == Walk(rest, best, last, true)
  {
    var s := LazyText(lazy) + rest;
    if lazy {
      assert s[1..] == rest;
    } else {
      assert s == rest;
    }
  }

  /** So is a quantified atom; a repetition may have counted its height already. */
  lemma {:induction false} WalkPiece(p: Piece, rest: string, best: nat, last: nat, haveAtom: bool)
    requires ValidPiece(p)
    ensures var b := Flushed(best, last, haveAtom);
      Walk(PieceText(p, rest), best, last, haveAtom)
        == Walk(rest, if Repeats(p.quant) then Max(b, PieceHeight(p)) else b, PieceHeight(p), true)
    decreases p
  {
    hide Walk, LazyText, QuantText;
    var lazy := LazyText(p.lazy) + rest;
    var b, h := Flushed(best, last, haveAtom), AtomHeight(p.atom);
    WalkAtom(p.atom, QuantText(p.quant) + lazy, best, last, haveAtom);
    WalkQuant(p.quant, lazy, b, h);
    WalkLazy(p.lazy, rest, b, h);
    WalkLazy(p.lazy, rest, Max(b, h + 1), h + 1);
  }

  lemma {:induction false} WalkPieces(ps: seq<Piece>, rest: string, best: nat, last: nat, haveAtom: bool)
    returns (best': nat, last': nat, haveAtom': bool)
    requires ValidPieces(ps)
    ensures Walk(PiecesText(ps, rest), best, last, haveAtom) == Walk(rest, best', last', haveAtom')
    ensures Flushed(best', last', haveAtom') == Max(Flushed(best, last, haveAtom), PiecesHeight(ps))
    decreases ps
  {
    best', last', haveAtom' := best, last, haveAtom;
    if ps != [] {
      var b, h := Flushed(best, last, haveAtom), PieceHeight(ps[0]);
      WalkPiece(ps[0], PiecesText(ps[1..], rest), best, last, haveAtom);
      best', last', haveAtom' :=
        WalkPieces(ps[1..], rest, if Repeats(ps[0].quant) then Max(b, h) else b, h, true);
    }
  }

  /** A choice is consumed up to what closes it, and gives the greatest height of its branches. */
  lemma {:induction false} WalkBranches(branches: seq<Branch>, rest: string, best: nat)
    requires ValidBranches(branches) && Closing(rest)
    ensures Walk(BranchesText(branches, rest), best, 0, false) == Scan(Max(best, BranchesHeight(branches)), rest)
    decreases branches
  {
    assert ValidBranch(branches[0]);
    WalkBranch(branches[0], if |branches| == 1 then rest else "|" + BranchesText(branches[1..], rest), best);
    if |branches| > 1 {
      var tail := BranchesText(branches[1..], rest);
      assert ("|" + tail)[1..] == tail;
      WalkBranches(branches[1..], rest, Max(best, BranchHeight(branches[0])));
    }
  }

  lemma {:induction false} WalkBranch(b: Branch, rest: string, best: nat)
    requires ValidBranch(b) && (Closing(rest) || rest[0] == '|')
    ensures Walk(BranchText(b, rest), best, 0, false)
         == if Closing(rest) then Scan(Max(best, BranchHeight(b)), rest)
            else Walk(rest[1..], Max(best, BranchHeight(b)), 0, false)
    decreases b
  {
    var best', last', haveAtom' := WalkPieces(b.pieces, rest, best, 0, false);
  }

  /** The text of a choice does not start like a group-type prefix. */
  lemma {:induction false} NoQuestionMark(branches: seq<Branch>, rest: string)
    requires ValidBranches(branches) && Closing(rest)
    ensures !StartsWith(BranchesText(branches, rest), '?')
  {
    var b := branches[0];
    FirstCharacter(b, if |branches| == 1 then rest else "|" + BranchesText(branches[1..], rest));
  }

  lemma {:induction false} FirstCharacter(b: Branch, rest: string)
    requires ValidBranch(b) && !StartsWith(rest, '?')
    ensures !StartsWith(BranchText(b, rest), '?')
  {
    var ps := b.pieces;
    if ps != [] {
      assert ValidPiece(ps[0]) && ValidAtom(ps[0].atom);
      assert BranchText(b, rest) == PieceText(ps[0], PiecesText(ps[1..], rest));
      assert ps[0].atom.Group? ==> BranchText(b, rest)[0] == '(';
    }
  }

  /** On the text of every pattern in the domain, the scan reads the whole text and returns its star height. */
  lemma {:induction false} ScanIsStarHeight(branches: seq<Branch>)
    requires ValidBranches(branches)
    ensures Walk(Text(branches), 0, 0, false) == Scan(BranchesHeight(branches), "")
    ensures MaxStarHeight(Text(branches)) == BranchesHeight(branches)
  {
    WalkBranches(branches, "", 0);
  }

  // ----- what a height of two means

  predicate RepeatInAtom(a: Atom)
    decreases a
  {
    a.Group? && RepeatIn(a.branches)
  }

  predicate RepeatInPieces(ps: seq<Piece>)
    decreases ps
  {
    exists i | 0 <= i < |ps| :: RepeatInPiece(ps[i])
  }

  predicate RepeatInPiece(p: Piece)
    decreases p
  {
    Repeats(p.quant) || RepeatInAtom(p.atom)
  }

  predicate RepeatInBranch(b: Branch)
    decreases b
  {
    RepeatInPieces(b.pieces)
  }

  /** Some repetition, at any depth. */
  predicate RepeatIn(branches: seq<Branch>)
    decreases branches
  {
    exists i | 0 <= i < |branches| :: RepeatInBranch(branches[i])
  }

  predicate NestedInAtom(a: Atom)
    decreases a
  {
    a.Group? && NestedIn(a.branches)
  }

  predicate NestedInPiece(p: Piece)
    decreases p
  {
    (Repeats(p.quant) && RepeatInAtom(p.atom)) || NestedInAtom(p.atom)
  }

  predicate NestedInPieces(ps: seq<Piece>)
    decreases ps
  {
    exists i | 0 <= i < |ps| :: NestedInPiece(ps[i])
  }

  predicate NestedInBranch(b: Branch)
    decreases b
  {
    NestedInPieces(b.pieces)
  }

  /** Some repeated group, at any depth, that itself holds a repetition. */
  predicate NestedIn(branches: seq<Branch>)
    decreases branches
  {
    exists i | 0 <= i < |branches| :: NestedInBranch(branches[i])
  }

  lemma {:induction false} AtomHeightMeans(a: Atom)
    ensures (1 <= AtomHeight(a) <==> RepeatInAtom(a)) && (2 <= AtomHeight(a) <==> NestedInAtom(a))
    decreases a
  {
    if a.Group? {
      HeightMeans(a.branches);
    }
  }

  lemma {:induction false} PieceHeightMeans(p: Piece)
    ensures (1 <= PieceHeight(p) <==> RepeatInPiece(p)) && (2 <= PieceHeight(p) <==> NestedInPiece(p))
    decreases p
  {
    AtomHeightMeans(p.atom);
  }

  lemma {:induction false} PiecesHeightMeans(ps: seq<Piece>)
    ensures (1 <= PiecesHeight(ps) <==> RepeatInPieces(ps)) && (2 <= PiecesHeight(ps) <==> NestedInPieces(ps))
    decreases ps
  {
    if ps != [] {
      PieceHeightMeans(ps[0]);
      PiecesHeightMeans(ps[1..]);
      assert forall i | 0 <= i < |ps| :: i == 0 || ps[i] == ps[1..][i - 1];
      assert forall i | 0 <= i < |ps[1..]| :: ps[1..][i] == ps[i + 1];
    }
  }

  lemma {:induction false} BranchHeightMeans(b: Branch)
    ensures (1 <= BranchHeight(b) <==> RepeatInBranch(b)) && (2 <= BranchHeight(b) <==> NestedInBranch(b))
    decreases b
  {
    PiecesHeightMeans(b.pieces);
  }

  /** The height is at least one exactly when something repeats, and at least two exactly when a
      repeated group holds a repetition. */
  lemma {:induction false} HeightMeans(branches: seq<Branch>)
    ensures 1 <= BranchesHeight(branches) <==> RepeatIn(branches)
    ensures 2 <= BranchesHeight(branches) <==> NestedIn(branches)
    decreases branches
  {
    if branches != [] {
      BranchHeightMeans(branches[0]);
      HeightMeans(branches[1..]);
      assert forall i | 0 <= i < |branches| :: i == 0 || branches[i] == branches[1..][i - 1];
      assert forall i | 0 <= i < |branches[1..]| :: branches[1..][i] == branches[i + 1];
    }
  }

  /** The guard `maxStarHeight(pattern) >= 2` rejects a pattern of the domain exactly for nested repetition. */
  lemma {:induction false} GuardRejectsNested(branches: seq<Branch>)
    requires ValidBranches(branches)
    ensures MaxStarHeight(Text(branches)) >= 2 <==> NestedIn(branches)
  {
    ScanIsStarHeight(branches);
    HeightMeans(branches);
  }

  // ----- the scan with its shared index

  class Scanner {
    const src: string
    var i: nat

    constructor (src: string)
      ensures this.src == src && i == 0
    {
      this.src := src;
      i := 0;
    }

    /** The text not yet read; the index may run past the end after an escape. */
    ghost function Rest(): string
      reads this
    {
      Drop(src, i)
    }

    method ReadClass()
      requires i < |src|
      modifies this
      ensures Rest() == SkipClass(old(Rest())[1..])
    {
      i := i + 1;
      ghost var start := Rest();
      while i < |src| && src[i] != ']'
        invariant SkipClass(start) == SkipClass(Rest())
        decreases |src| - i
      {
        var s := Rest();
        if src[i] == '\\' {
          i := i + 1;
        }
        i := i + 1;
        assert Rest() == if s[0] == '\\' then Drop(s, 2) else s[1..];
      }
      i := i + 1;
    }

    /** The rest of a group name. */
    method SkipName()
      modifies this
      ensures Rest() == SkipPast(old(Rest()), '>')
    {
      ghost var start := Rest();
      while i < |src| && src[i] != '>'
        invariant SkipPast(start, '>') == SkipPast(Rest(), '>')
      {
        i := i + 1;
      }
      if i < |src| {
        i := i + 1;
      }
    }

    method SkipGroupPrefix()
      modifies this
      ensures Rest() == SkipPrefix(old(Rest()))
    {
      hide SkipPast;
      if i < |src| && src[i] == '?' {
        i := i + 1;
        ghost var t := Rest();
        assert t == old(Rest())[1..] && |t| == |src| - i;
        assert forall k | 0 <= k < |t| :: t[k] == src[i + k];
        if i + 1 < |src| && src[i] == '<' && (src[i + 1] == '=' || src[i + 1] == '!') {
          i := i + 2;
          assert Rest() == t[2..];
        } else if i < |src| && src[i] == '<' {
          SkipName();
        } else if i < |src| && (src[i] == ':' || src[i] == '=' || src[i] == '!') {
          i := i + 1;
          assert Rest() == t[1..];
        }
      }
    }

    method FindClose() returns (close: nat)
      requires i < |src|
      ensures close == i + IndexOf(Rest(), '}')
    {
      close := i;
      while close < |src| && src[close] != '}'
        invariant i <= close <= |src|
        invariant i + IndexOf(Rest(), '}') == close + IndexOf(src[close..], '}')
      {
        close := close + 1;
      }
    }

    /** The `{` branch: a count if the brace is closed, else a literal brace. */
    method ReadBraces() returns (closed: bool, repeating: bool)
      requires i < |src| && src[i] == '{'
      modifies this
      ensures var s := old(Rest()); var close := IndexOf(s, '}');
        && closed == (close < |s|)
        && Rest() == (if closed then s[close + 1..] else s[1..])
        && repeating == (closed && ',' in s[1..close])
    {
      ghost var s := Rest();
      var close := FindClose();
      closed, repeating := close < |src|, false;
      if closed {
        repeating := ',' in src[i + 1..close];
        assert s[1..close - i] == src[i + 1..close];
        i := close + 1;
      } else {
        i := i + 1;
      }
    }

    /** The `(` branch: a group, from its parenthesis to the one that closes it. */
    method WalkGroup() returns (height: nat)
      requires i < |src| && src[i] == '('
      modifies this
      ensures var inner := Walk(SkipPrefix(old(Rest())[1..]), 0, 0, false);
        && height == inner.height
        && Rest() == (if StartsWith(inner.rest, ')') then inner.rest[1..] else inner.rest)
      decreases |Rest()|, 0
    {
      hide Walk;
      ghost var s := Rest();
      i := i + 1;
      assert Rest() == s[1..];
      SkipGroupPrefix();
      height := WalkLevel();
      if i < |src| && src[i] == ')' {
        i := i + 1;
      }
    }

    /** The branches for `*`, `+`, `?` and `{`. */
    method WalkQuantifier(best: nat, last: nat, haveAtom: bool)
      returns (best': nat, last': nat, haveAtom': bool)
      requires i < |src| && IsMark(src[i])
      modifies this
      ensures Walk(old(Rest()), best, last, haveAtom) == Walk(Rest(), best', last', haveAtom')
      ensures |Rest()| < |old(Rest())|
    {
      best', last', haveAtom' := best, last, haveAtom;
      ghost var s := Rest();
      WalkMark(s, best, last, haveAtom);
      hide Walk, IndexOf;
      var repeating := src[i] == '*' || src[i] == '+';
      if src[i] == '{' {
        var closed;
        closed, repeating := ReadBraces();
        if !closed {
          best', last', haveAtom' := Flushed(best, last, haveAtom), 0, true;
        }
      } else {
        i := i + 1;
        assert Rest() == s[1..];
      }
      if haveAtom && repeating {
        last' := last + 1;
        best' := Max(best, last');
      }
    }

    /** The other branches: alternation, and the atoms. */
    method WalkAtomOrBar(best: nat, last: nat, haveAtom: bool)
      returns (best': nat, last': nat, haveAtom': bool)
      requires i < |src| && !IsMark(src[i]) && src[i] != ')'
      modifies this
      ensures Walk(old(Rest()), best, last, haveAtom) == Walk(Rest(), best', last', haveAtom')
      ensures |Rest()| < |old(Rest())|
      decreases |Rest()|, 1
    {
      hide SkipClass, SkipPrefix, IndexOf, Repeat;
      best', last', haveAtom' := Flushed(best, last, haveAtom), 0, true;
      ghost var s := Rest();
      var c := src[i];
      if c == '[' {
        ReadClass();
      } else if c == '(' {
        last' := WalkGroup();
      } else if c == '\\' {
        i := i + 2;
        assert Rest() == Drop(s, 2);
      } else {
        haveAtom' := c != '|';
        i := i + 1;
        assert Rest() == s[1..];
      }
    }

    method WalkLevel() returns (groupMax: nat)
      modifies this
      ensures Walk(old(Rest()), 0, 0, false) == Scan(groupMax, Rest())
      decreases |Rest()|, 2
    {
      groupMax := 0;
      var lastHeight := 0;
      var haveAtom := false;
      ghost var result := Walk(Rest(), 0, 0, false);
      ghost var size := |Rest()|;
      while i < |src| && src[i] != ')'
        invariant result == Walk(Rest(), groupMax, lastHeight, haveAtom)
        invariant |Rest()| <= size
        decreases |Rest()|
      {
        if IsMark(src[i]) {
          groupMax, lastHeight, haveAtom := WalkQuantifier(groupMax, lastHeight, haveAtom);
        } else {
          groupMax, lastHeight, haveAtom := WalkAtomOrBar(groupMax, lastHeight, haveAtom);
        }
      }
      groupMax := Flushed(groupMax, lastHeight, haveAtom);
    }
  }

  method ComputeMaxStarHeight(src: string) returns (height: nat)
    ensures height == MaxStarHeight(src)
  {
    var scanner := new Scanner(src);
    height := scanner.WalkLevel();
  }
}
