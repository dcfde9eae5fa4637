/** What the parse functions of parser.py do, stated against the grammar of module Grammar:
    they build exactly the tree a syntax tree denotes, they accept nothing else, they stop only
    at the tokens their grammar level allows to follow, and chains of one precedence nest to the
    right. */
module ParserProperties {
  import opened Wrappers
  import opened Lexer
  import opened Parser
  import opened Grammar

  /** Tokens at which `parse_ea` hands back its left operand. */
  predicate ExprFollow(t: Token) {
    t.kind == RPar || t.kind == End
  }

  /** Tokens at which `parse_e2a` hands back its left operand. */
  predicate TermFollow(t: Token) {
    t.kind == Plus || t.kind == Minus || t.kind == RPar || t.kind == End
  }

  /** `parse_ea` and `parse_e2a` return their left operand, consuming nothing, exactly at their
      follow tokens; at any token that neither continues nor follows they raise a syntax error
      naming it. */
  lemma TailFollowSets(ts: seq<Token>, left: Node)
    requires Terminated(ts)
    ensures ExprTail(ts, left) == Success(Parsed(left, ts)) <==> ExprFollow(ts[0])
    ensures TermTail(ts, left) == Success(Parsed(left, ts)) <==> TermFollow(ts[0])
    ensures !ExprFollow(ts[0]) && ts[0].kind != Plus && ts[0].kind != Minus ==>
              ExprTail(ts, left) == Failure(SyntaxError(ts[0].kind))
    ensures !TermFollow(ts[0]) && ts[0].kind != Mult && ts[0].kind != Div ==>
              TermTail(ts, left) == Failure(SyntaxError(ts[0].kind))
  {
  }

  /** A factor followed by a token that can neither continue nor end a term makes the whole parse
      fail at that token. */
  lemma RejectedAfterFactor(ts: seq<Token>)
    requires Terminated(ts) && Factor(ts).Success?
    requires !TermFollow(Factor(ts).value.rest[0])
    requires Factor(ts).value.rest[0].kind != Mult && Factor(ts).value.rest[0].kind != Div
    ensures ParseTokens(ts) == Failure(SyntaxError(Factor(ts).value.rest[0].kind))
  {
    var f := Factor(ts).value;
    TailFollowSets(f.rest, f.node);
    assert Term(ts) == TermTail(f.rest, f.node);
    assert Expr(ts) == Failure(SyntaxError(f.rest[0].kind));
  }

  /** Completeness: the parse functions build the tree that any syntax tree denotes, and leave
      exactly the tokens that follow it, provided those start with a token the level allows. */
  lemma {:induction false} CompleteE(e: SynE, tail: seq<Token>)
    requires ValidE(e) && Terminated(tail) && ExprFollow(tail[0])
    ensures Terminated(TokensE(e) + tail)
    ensures Expr(TokensE(e) + tail) == Success(Parsed(AstE(e), tail))
  {
    match e
    case Sum(l, op, r) =>
      var rTail := TokensE(r) + tail;
      var opTail := [op] + rTail;
      assert TokensE(e) + tail == TokensT(l) + opTail;
      CompleteT(l, opTail);
      assert opTail[0] == op && opTail[1..] == rTail;
      CompleteE(r, tail);
      assert ExprTail(opTail, AstT(l)) == Success(Parsed(AstE(e), tail));
      assert Expr(TokensE(e) + tail) == ExprTail(opTail, AstT(l));
    case Single(t) =>
      CompleteT(t, tail);
      assert ExprTail(tail, AstT(t)) == Success(Parsed(AstE(e), tail));
  }

  lemma {:induction false} CompleteT(t: SynT, tail: seq<Token>)
    requires ValidT(t) && Terminated(tail) && TermFollow(tail[0])
    ensures Terminated(TokensT(t) + tail)
    ensures Term(TokensT(t) + tail) == Success(Parsed(AstT(t), tail))
  {
    match t
    case Product(l, op, r) =>
      var rTail := TokensT(r) + tail;
      var opTail := [op] + rTail;
      assert TokensT(t) + tail == TokensF(l) + opTail;
      CompleteF(l, opTail);
      assert opTail[0] == op && opTail[1..] == rTail;
      CompleteT(r, tail);
      assert TermTail(opTail, AstF(l)) == Success(Parsed(AstT(t), tail));
      assert Term(TokensT(t) + tail) == TermTail(opTail, AstF(l));
    case Operand(f) =>
      CompleteF(f, tail);
      assert TermTail(tail, AstF(f)) == Success(Parsed(AstT(t), tail));
  }

  lemma {:induction false} CompleteF(f: SynF, tail: seq<Token>)
    requires ValidF(f) && Terminated(tail)
    ensures Terminated(TokensF(f) + tail)
    ensures Factor(TokensF(f) + tail) == Success(Parsed(AstF(f), tail))
  {
    match f
    case Digit(n) =>
      assert (TokensF(f) + tail)[1..] == tail;
    case Paren(o, e, c) =>
      var ts := TokensF(f) + tail;
      var closeTail := [c] + tail;
      assert ts[0] == o && ts[1..] == TokensE(e) + closeTail;
      CompleteE(e, closeTail);
      assert closeTail[1..] == tail;
      assert Expect(closeTail, RPar) == Success((c, tail));
  }

  /** One step of `parse_ea` that succeeded: either it consumed an operator and a whole expression,
      or it stood at a follow token. */
  lemma ExprTailStep(ts: seq<Token>, left: Node)
    requires Terminated(ts) && ExprTail(ts, left).Success?
    ensures ts[0].kind == Plus || ts[0].kind == Minus || ExprFollow(ts[0])
    ensures ts[0].kind == Plus || ts[0].kind == Minus ==>
              |ts| > 1 && Expr(ts[1..]).Success? &&
              ExprTail(ts, left).value == Parsed(Node(ts[0].kind, ts[0].value, [left, Expr(ts[1..]).value.node]), Expr(ts[1..]).value.rest)
    ensures ExprFollow(ts[0]) ==> ExprTail(ts, left).value == Parsed(left, ts)
  {
  }

  /** One step of `parse_e2a` that succeeded. */
  lemma TermTailStep(ts: seq<Token>, left: Node)
    requires Terminated(ts) && TermTail(ts, left).Success?
    ensures ts[0].kind == Mult || ts[0].kind == Div || TermFollow(ts[0])
    ensures ts[0].kind == Mult || ts[0].kind == Div ==>
              |ts| > 1 && Term(ts[1..]).Success? &&
              TermTail(ts, left).value == Parsed(Node(ts[0].kind, ts[0].value, [left, Term(ts[1..]).value.node]), Term(ts[1..]).value.rest)
    ensures TermFollow(ts[0]) ==> TermTail(ts, left).value == Parsed(left, ts)
  {
  }

  /** A successful `parse_e3` that did not see a number matched `(`, an expression and `)`. */
  lemma FactorParenStep(ts: seq<Token>)
    requires Terminated(ts) && Factor(ts).Success? && ts[0].kind != Num
    ensures ts[0].kind == LPar && |ts| > 1 && Expr(ts[1..]).Success?
    ensures Expr(ts[1..]).value.rest[0].kind == RPar
    ensures Factor(ts).value == Parsed(Expr(ts[1..]).value.node, Expr(ts[1..]).value.rest[1..])
  {
  }

  /** Soundness: whatever the parse functions accept is the spelling of a syntax tree, followed by
      a token the level allows, and the tree they build is the one that syntax tree denotes. */
  lemma {:induction false} SoundE(ts: seq<Token>) returns (e: SynE)
    requires Terminated(ts) && Expr(ts).Success?
    ensures ValidE(e) && ts == TokensE(e) + Expr(ts).value.rest
    ensures AstE(e) == Expr(ts).value.node && ExprFollow(Expr(ts).value.rest[0])
    decreases |ts|, 3
  {
    var t := SoundT(ts);
    e := SoundExprTail(Term(ts).value.rest, t);
  }

  lemma {:induction false} SoundExprTail(ts: seq<Token>, t: SynT) returns (e: SynE)
    requires Terminated(ts) && ValidT(t) && ExprTail(ts, AstT(t)).Success?
    ensures ValidE(e) && TokensT(t) + ts == TokensE(e) + ExprTail(ts, AstT(t)).value.rest
    ensures AstE(e) == ExprTail(ts, AstT(t)).value.node && ExprFollow(ExprTail(ts, AstT(t)).value.rest[0])
    decreases |ts|, 0
  {
    if ts[0].kind == Plus || ts[0].kind == Minus {
      ExprTailStep(ts, AstT(t));
      var right := Expr(ts[1..]).value;
      var r := SoundE(ts[1..]);
      e := Sum(t, ts[0], r);
      SplitAfter(TokensT(t), ts, TokensE(r), right.rest);
    } else {
      ExprTailStep(ts, AstT(t));
      e := Single(t);
    }
  }

  lemma {:induction false} SoundT(ts: seq<Token>) returns (t: SynT)
    requires Terminated(ts) && Term(ts).Success?
    ensures ValidT(t) && ts == TokensT(t) + Term(ts).value.rest
    ensures AstT(t) == Term(ts).value.node && TermFollow(Term(ts).value.rest[0])
    decreases |ts|, 2
  {
    var f := SoundF(ts);
    t := SoundTermTail(Factor(ts).value.rest, f);
  }

  lemma {:induction false} SoundTermTail(ts: seq<Token>, f: SynF) returns (t: SynT)
    requires Terminated(ts) && ValidF(f) && TermTail(ts, AstF(f)).Success?
    ensures ValidT(t) && TokensF(f) + ts == TokensT(t) + TermTail(ts, AstF(f)).value.rest
    ensures AstT(t) == TermTail(ts, AstF(f)).value.node && TermFollow(TermTail(ts, AstF(f)).value.rest[0])
    decreases |ts|, 0
  {
    if ts[0].kind == Mult || ts[0].kind == Div {
      TermTailStep(ts, AstF(f));
      var right := Term(ts[1..]).value;
      var r := SoundT(ts[1..]);
      t := Product(f, ts[0], r);
      SplitAfter(TokensF(f), ts, TokensT(r), right.rest);
    } else {
      TermTailStep(ts, AstF(f));
      t := Operand(f);
    }
  }

  lemma {:induction false} SoundF(ts: seq<Token>) returns (f: SynF)
    requires Terminated(ts) && Factor(ts).Success?
    ensures ValidF(f) && ts == TokensF(f) + Factor(ts).value.rest
    ensures AstF(f) == Factor(ts).value.node
    decreases |ts|, 1
  {
    if ts[0].kind == Num {
      f := Digit(ts[0]);
      assert ts == [ts[0]] + ts[1..];
    } else {
      FactorParenStep(ts);
      var inner := Expr(ts[1..]).value;
      var e := SoundE(ts[1..]);
      f := Paren(ts[0], e, inner.rest[0]);
      SplitAround(ts, TokensE(e), inner.rest);
    }
  }

  /** Sequence bookkeeping: a token, a body and a closing token, then the rest. */
  lemma SplitAround(ts: seq<Token>, body: seq<Token>, after: seq<Token>)
    requires |ts| > 0 && ts[1..] == body + after && |after| > 0
    ensures ts == ([ts[0]] + (body + [after[0]])) + after[1..]
  {
    assert ts == [ts[0]] + ts[1..];
    assert after == [after[0]] + after[1..];
  }

  /** Sequence bookkeeping: what precedes, an operator token and its operand, then the rest. */
  lemma SplitAfter(before: seq<Token>, ts: seq<Token>, operand: seq<Token>, after: seq<Token>)
    requires |ts| > 0 && ts[1..] == operand + after
    ensures before + ts == (before + ([ts[0]] + operand)) + after
  {
    assert ts == [ts[0]] + ts[1..];
  }

  /** `parse_e` succeeds with a node and leftover tokens exactly when the consumed tokens spell a
      syntax tree denoting that node and the leftover starts with `)` or the end marker. */
  lemma ExprIff(ts: seq<Token>, n: Node, rest: seq<Token>)
    requires Terminated(ts)
    ensures Expr(ts) == Success(Parsed(n, rest)) <==>
              Terminated(rest) && ExprFollow(rest[0]) &&
              exists e :: ValidE(e) && ts == TokensE(e) + rest && n == AstE(e)
  {
    if Expr(ts) == Success(Parsed(n, rest)) {
      var e := SoundE(ts);
    }
    if Terminated(rest) && ExprFollow(rest[0]) && exists e :: ValidE(e) && ts == TokensE(e) + rest && n == AstE(e) {
      var e :| ValidE(e) && ts == TokensE(e) + rest && n == AstE(e);
      CompleteE(e, rest);
    }
  }

  /** A tree built by `parse_e` from lexer tokens is well formed, and reading it in order gives the
      consumed tokens without their parentheses. */
  lemma ExprReadsBack(ts: seq<Token>)
    requires Terminated(ts) && AllValid(ts) && Expr(ts).Success?
    ensures WellFormed(Expr(ts).value.node)
    ensures InOrder(Expr(ts).value.node) == Unparen(ts[..|ts| - |Expr(ts).value.rest|])
  {
    var e := SoundE(ts);
    assert ts[..|ts| - |Expr(ts).value.rest|] == TokensE(e);
    AstWellFormedE(e);
    InOrderE(e);
  }

  /** `parse` succeeds on a string exactly when its tokens, before the end marker, spell a syntax
      tree; the result is the tree that syntax tree denotes. In particular nothing but the end
      marker may remain after `parse_e`. */
  lemma ParseStringIff(s: string, n: Node)
    ensures ParseString(s) == Success(n) <==>
              exists e :: ValidE(e) && Lex(s) == Success(TokensE(e) + [EndToken]) && n == AstE(e)
  {
    if ParseString(s) == Success(n) {
      var ts := Lex(s).value;
      var e := SoundE(ts);
      var rest := Expr(ts).value.rest;
      assert ts[|TokensE(e)|] == rest[0];
      assert rest == [EndToken];
    }
    if exists e :: ValidE(e) && Lex(s) == Success(TokensE(e) + [EndToken]) && n == AstE(e) {
      var e :| ValidE(e) && Lex(s) == Success(TokensE(e) + [EndToken]) && n == AstE(e);
      CompleteE(e, [EndToken]);
    }
  }

  /** What `parse` returns is a well-formed tree whose in-order reading is the input's tokens
      without parentheses and without the end marker. */
  lemma ParsedTreeShape(s: string)
    requires ParseString(s).Success?
    ensures WellFormed(ParseString(s).value)
    ensures InOrder(ParseString(s).value) == Unparen(Lex(s).value[..|s|])
  {
    var ts := Lex(s).value;
    ExprReadsBack(ts);
    ParseStringIff(s, ParseString(s).value);
  }

  /** The tokens of a chain `d0 op0 d1 op1 ... dn` without parentheses. */
  function ChainTokens(ds: seq<Token>, ops: seq<Token>): seq<Token>
    requires |ds| == |ops| + 1
  {
    if ops == [] then [ds[0]] else [ds[0], ops[0]] + ChainTokens(ds[1..], ops[1..])
  }

  /** The chain grouped to the right: `d0 op0 (d1 op1 (... dn))`. */
  function RightNest(ds: seq<Token>, ops: seq<Token>): Node
    requires |ds| == |ops| + 1
  {
    if ops == [] then Leaf(ds[0]) else Node(ops[0].kind, ops[0].value, [Leaf(ds[0]), RightNest(ds[1..], ops[1..])])
  }

  predicate AllKind(ts: seq<Token>, k1: TokenType, k2: TokenType) {
    forall t :: t in ts ==> t.kind == k1 || t.kind == k2
  }

  lemma AllKindTail(ts: seq<Token>, k1: TokenType, k2: TokenType)
    requires AllKind(ts, k1, k2) && ts != []
    ensures AllKind(ts[1..], k1, k2)
  {
    assert forall t :: t in ts[1..] ==> t in ts;
  }

  /** A chain of additions and subtractions as syntax. */
  function SumChain(ds: seq<Token>, ops: seq<Token>): SynE
    requires |ds| == |ops| + 1
  {
    if ops == [] then Single(Operand(Digit(ds[0]))) else Sum(Operand(Digit(ds[0])), ops[0], SumChain(ds[1..], ops[1..]))
  }

  /** A chain of multiplications and divisions as syntax. */
  function ProductChain(ds: seq<Token>, ops: seq<Token>): SynT
    requires |ds| == |ops| + 1
  {
    if ops == [] then Operand(Digit(ds[0])) else Product(Digit(ds[0]), ops[0], ProductChain(ds[1..], ops[1..]))
  }

  lemma {:induction false} SumChainSpells(ds: seq<Token>, ops: seq<Token>)
    requires |ds| == |ops| + 1 && AllKind(ds, Num, Num) && AllKind(ops, Plus, Minus)
    ensures ValidE(SumChain(ds, ops)) && TokensE(SumChain(ds, ops)) == ChainTokens(ds, ops)
    ensures AstE(SumChain(ds, ops)) == RightNest(ds, ops)
    decreases |ops|
  {
    var first := Operand(Digit(ds[0]));
    assert ds[0] in ds;
    assert ValidF(Digit(ds[0])) && TokensF(Digit(ds[0])) == [ds[0]] && AstF(Digit(ds[0])) == Leaf(ds[0]);
    assert ValidT(first) && TokensT(first) == TokensF(Digit(ds[0]));
    assert AstT(first) == AstF(Digit(ds[0]));
    if ops == [] {
      assert SumChain(ds, ops) == Single(first);
    } else {
      assert ops[0] in ops;
      AllKindTail(ds, Num, Num);
      AllKindTail(ops, Plus, Minus);
      var rest := SumChain(ds[1..], ops[1..]);
      SumChainSpells(ds[1..], ops[1..]);
      assert SumChain(ds, ops) == Sum(first, ops[0], rest);
      assert TokensE(Sum(first, ops[0], rest)) == [ds[0]] + ([ops[0]] + TokensE(rest));
    }
  }

  lemma {:induction false} ProductChainSpells(ds: seq<Token>, ops: seq<Token>)
    requires |ds| == |ops| + 1 && AllKind(ds, Num, Num) && AllKind(ops, Mult, Div)
    ensures ValidT(ProductChain(ds, ops)) && TokensT(ProductChain(ds, ops)) == ChainTokens(ds, ops)
    ensures AstT(ProductChain(ds, ops)) == RightNest(ds, ops)
    decreases |ops|
  {
    var first := Digit(ds[0]);
    assert ds[0] in ds;
    assert ValidF(first) && TokensF(first) == [ds[0]] && AstF(first) == Leaf(ds[0]);
    if ops == [] {
      assert ProductChain(ds, ops) == Operand(first);
    } else {
      assert ops[0] in ops;
      AllKindTail(ds, Num, Num);
      AllKindTail(ops, Mult, Div);
      var rest := ProductChain(ds[1..], ops[1..]);
      ProductChainSpells(ds[1..], ops[1..]);
      assert ProductChain(ds, ops) == Product(first, ops[0], rest);
      assert TokensT(Product(first, ops[0], rest)) == [ds[0]] + ([ops[0]] + TokensT(rest));
    }
  }

  /** Same-precedence chains group to the right: the right operand of `+`/`-` is a whole `parse_e`
      result and that of `*`/`/` a whole `parse_e2` result, so `3-2+1` becomes `3-(2+1)` and
      `8/4/2` becomes `8/(4/2)`. */
  lemma ChainsNestRight(ds: seq<Token>, ops: seq<Token>, tail: seq<Token>)
    requires |ds| == |ops| + 1 && AllKind(ds, Num, Num) && Terminated(tail) && ExprFollow(tail[0])
    requires AllKind(ops, Plus, Minus) || AllKind(ops, Mult, Div)
    ensures Expr(ChainTokens(ds, ops) + tail) == Success(Parsed(RightNest(ds, ops), tail))
  {
    if AllKind(ops, Plus, Minus) {
      SumChainSpells(ds, ops);
      CompleteE(SumChain(ds, ops), tail);
    } else {
      ProductChainSpells(ds, ops);
      CompleteE(Single(ProductChain(ds, ops)), tail);
    }
  }
}
