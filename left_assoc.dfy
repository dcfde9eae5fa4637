/** The parser with same-precedence operators grouping to the left, as `3-2+1` = 2 and `8/4/2` = 1
    require: the tail productions fold each new operand into the tree built so far, instead of
    taking the whole rest of the chain as the right operand. Lexing, factors and error reporting
    are those of `Parser`. */
module LeftAssoc {
  import opened Wrappers
  import opened Lexer
  import opened Parser
  import opened ParserProperties

  function ExprL(ts: seq<Token>): (r: Result<Parsed, ParseError>)
    requires Terminated(ts)
    ensures r.Success? ==> ProperSuffix(r.value.rest, ts) && Terminated(r.value.rest)
    decreases |ts|, 3
  {
    var left :- TermL(ts);
    ExprLTail(left.rest, left.node)
  }

  /** After `+` or `-`: one term, joined to the tree so far, then the rest of the chain. */
  function ExprLTail(ts: seq<Token>, left: Node): (r: Result<Parsed, ParseError>)
    requires Terminated(ts)
    ensures r.Success? ==> Suffix(r.value.rest, ts) && Terminated(r.value.rest)
    decreases |ts|, 0
  {
    var kind := ts[0].kind;
    if kind == Plus || kind == Minus then
      var right :- TermL(ts[1..]);
      ExprLTail(right.rest, Node(kind, ts[0].value, [left, right.node]))
    else if kind == RPar || kind == End then
      Success(Parsed(left, ts))
    else
      Failure(SyntaxError(kind))
  }

  function TermL(ts: seq<Token>): (r: Result<Parsed, ParseError>)
    requires Terminated(ts)
    ensures r.Success? ==> ProperSuffix(r.value.rest, ts) && Terminated(r.value.rest)
    decreases |ts|, 2
  {
    var left :- FactorL(ts);
    TermLTail(left.rest, left.node)
  }

  /** After `*` or `/`: one factor, joined to the tree so far, then the rest of the chain. */
  function TermLTail(ts: seq<Token>, left: Node): (r: Result<Parsed, ParseError>)
    requires Terminated(ts)
    ensures r.Success? ==> Suffix(r.value.rest, ts) && Terminated(r.value.rest)
    decreases |ts|, 0
  {
    var kind := ts[0].kind;
    if kind == Mult || kind == Div then
      var right :- FactorL(ts[1..]);
      TermLTail(right.rest, Node(kind, ts[0].value, [left, right.node]))
    else if kind == Plus || kind == Minus || kind == End || kind == RPar then
      Success(Parsed(left, ts))
    else
      Failure(SyntaxError(kind))
  }

  function FactorL(ts: seq<Token>): (r: Result<Parsed, ParseError>)
    requires Terminated(ts)
    ensures r.Success? ==> ProperSuffix(r.value.rest, ts) && Terminated(r.value.rest)
    decreases |ts|, 1
  {
    if ts[0].kind == Num then
      Success(Parsed(Leaf(ts[0]), ts[1..]))
    else
      var open :- Expect(ts, LPar);
      var inner :- ExprL(open.1);
      var close :- Expect(inner.rest, RPar);
      Success(Parsed(inner.node, close.1))
  }

  function ParseStringL(s: string): Result<Node, ParseError> {
    var ts :- Lex(s);
    var e :- ExprL(ts);
    var end :- Expect(e.rest, End);
    Success(e.node)
  }

  /** Operator-operand pairs following a first operand: `op0 d0 op1 d1 ...`. */
  function OpChain(ds: seq<Token>, ops: seq<Token>): seq<Token>
    requires |ds| == |ops|
  {
    if ops == [] then [] else [ops[0], ds[0]] + OpChain(ds[1..], ops[1..])
  }

  /** The tree `acc` extended to the left by each pair in turn: `((acc op0 d0) op1 d1) ...`. */
  function FoldLeft(acc: Node, ds: seq<Token>, ops: seq<Token>): Node
    requires |ds| == |ops|
    decreases |ops|
  {
    if ops == [] then acc else FoldLeft(Node(ops[0].kind, ops[0].value, [acc, Leaf(ds[0])]), ds[1..], ops[1..])
  }

  /** The chain grouped to the left: `((d0 op0 d1) op1 d2) ...`. */
  function LeftNest(ds: seq<Token>, ops: seq<Token>): Node
    requires |ds| == |ops| + 1
  {
    FoldLeft(Leaf(ds[0]), ds[1..], ops)
  }

  lemma {:induction false} ChainTokensSplit(ds: seq<Token>, ops: seq<Token>)
    requires |ds| == |ops| + 1
    ensures ChainTokens(ds, ops) == [ds[0]] + OpChain(ds[1..], ops)
    decreases |ops|
  {
    if ops != [] {
      ChainTokensSplit(ds[1..], ops[1..]);
      assert ds[1..][1..] == ds[2..];
    }
  }

  /** A digit followed by a token that ends a term is a whole term. */
  lemma DigitTerm(ts: seq<Token>)
    requires Terminated(ts) && ts[0].kind == Num && |ts| > 1 && TermFollow(ts[1])
    ensures TermL(ts) == Success(Parsed(Leaf(ts[0]), ts[1..]))
  {
  }

  /** One additive step of the corrected `parse_ea`. */
  lemma ExprLTailStep(ts: seq<Token>, left: Node)
    requires Terminated(ts) && (ts[0].kind == Plus || ts[0].kind == Minus) && |ts| > 1 && TermL(ts[1..]).Success?
    ensures ExprLTail(ts, left) ==
              ExprLTail(TermL(ts[1..]).value.rest, Node(ts[0].kind, ts[0].value, [left, TermL(ts[1..]).value.node]))
  {
  }

  /** One multiplicative step of the corrected `parse_e2a`. */
  lemma TermLTailStep(ts: seq<Token>, left: Node)
    requires Terminated(ts) && (ts[0].kind == Mult || ts[0].kind == Div) && |ts| > 1 && FactorL(ts[1..]).Success?
    ensures TermLTail(ts, left) ==
              TermLTail(FactorL(ts[1..]).value.rest, Node(ts[0].kind, ts[0].value, [left, FactorL(ts[1..]).value.node]))
  {
  }

  lemma {:induction false} SumTailFolds(acc: Node, ds: seq<Token>, ops: seq<Token>, tail: seq<Token>)
    requires |ds| == |ops| && AllKind(ds, Num, Num) && AllKind(ops, Plus, Minus)
    requires Terminated(tail) && ExprFollow(tail[0])
    ensures Terminated(OpChain(ds, ops) + tail)
    ensures TermFollow((OpChain(ds, ops) + tail)[0])
    ensures ExprLTail(OpChain(ds, ops) + tail, acc) == Success(Parsed(FoldLeft(acc, ds, ops), tail))
    decreases |ops|
  {
    if ops == [] {
      assert OpChain(ds, ops) + tail == tail;
    } else {
      assert ops[0] in ops && ds[0] in ds;
      var rest := OpChain(ds[1..], ops[1..]) + tail;
      var next := Node(ops[0].kind, ops[0].value, [acc, Leaf(ds[0])]);
      SumTailFolds(next, ds[1..], ops[1..], tail);
      var ts := OpChain(ds, ops) + tail;
      SplitPair(ops[0], ds[0], OpChain(ds[1..], ops[1..]), tail);
      DigitTerm([ds[0]] + rest);
      ExprLTailStep(ts, acc);
    }
  }

  lemma {:induction false} ProductTailFolds(acc: Node, ds: seq<Token>, ops: seq<Token>, tail: seq<Token>)
    requires |ds| == |ops| && AllKind(ds, Num, Num) && AllKind(ops, Mult, Div)
    requires Terminated(tail) && ExprFollow(tail[0])
    ensures Terminated(OpChain(ds, ops) + tail)
    ensures TermLTail(OpChain(ds, ops) + tail, acc) == Success(Parsed(FoldLeft(acc, ds, ops), tail))
    decreases |ops|
  {
    if ops == [] {
      assert OpChain(ds, ops) + tail == tail;
    } else {
      assert ops[0] in ops && ds[0] in ds;
      var rest := OpChain(ds[1..], ops[1..]) + tail;
      var next := Node(ops[0].kind, ops[0].value, [acc, Leaf(ds[0])]);
      ProductTailFolds(next, ds[1..], ops[1..], tail);
      var ts := OpChain(ds, ops) + tail;
      SplitPair(ops[0], ds[0], OpChain(ds[1..], ops[1..]), tail);
      assert FactorL([ds[0]] + rest) == Success(Parsed(Leaf(ds[0]), rest));
      TermLTailStep(ts, acc);
    }
  }

  lemma Regroup(d: Token, chain: seq<Token>, tail: seq<Token>)
    ensures ([d] + chain) + tail == [d] + (chain + tail)
  {
  }

  lemma SplitPair(op: Token, d: Token, chain: seq<Token>, tail: seq<Token>)
    ensures ([op, d] + chain) + tail == [op] + ([d] + (chain + tail))
    ensures ([op] + ([d] + (chain + tail)))[1..] == [d] + (chain + tail)
    ensures ([d] + (chain + tail))[1..] == chain + tail
  {
  }

  lemma ExprLStep(ts: seq<Token>)
    requires Terminated(ts) && TermL(ts).Success?
    ensures ExprL(ts) == ExprLTail(TermL(ts).value.rest, TermL(ts).value.node)
  {
  }

  lemma TermLStep(ts: seq<Token>)
    requires Terminated(ts) && FactorL(ts).Success?
    ensures TermL(ts) == TermLTail(FactorL(ts).value.rest, FactorL(ts).value.node)
  {
  }

  lemma SumChainNestsLeft(d: Token, ds: seq<Token>, ops: seq<Token>, tail: seq<Token>)
    requires |ds| == |ops| && d.kind == Num && AllKind(ds, Num, Num) && AllKind(ops, Plus, Minus)
    requires Terminated(tail) && ExprFollow(tail[0])
    ensures Terminated([d] + (OpChain(ds, ops) + tail))
    ensures ExprL([d] + (OpChain(ds, ops) + tail)) == Success(Parsed(FoldLeft(Leaf(d), ds, ops), tail))
  {
    var rest := OpChain(ds, ops) + tail;
    SumTailFolds(Leaf(d), ds, ops, tail);
    assert ([d] + rest)[1..] == rest;
    DigitTerm([d] + rest);
    ExprLStep([d] + rest);
  }

  lemma ProductChainNestsLeft(d: Token, ds: seq<Token>, ops: seq<Token>, tail: seq<Token>)
    requires |ds| == |ops| && d.kind == Num && AllKind(ds, Num, Num) && AllKind(ops, Mult, Div)
    requires Terminated(tail) && ExprFollow(tail[0])
    ensures Terminated([d] + (OpChain(ds, ops) + tail))
    ensures ExprL([d] + (OpChain(ds, ops) + tail)) == Success(Parsed(FoldLeft(Leaf(d), ds, ops), tail))
  {
    var rest := OpChain(ds, ops) + tail;
    ProductTailFolds(Leaf(d), ds, ops, tail);
    assert ([d] + rest)[1..] == rest;
    assert FactorL([d] + rest) == Success(Parsed(Leaf(d), rest));
    TermLStep([d] + rest);
    ExprLStep([d] + rest);
  }

  /** With the correction, same-precedence chains group to the left. */
  lemma ChainsNestLeft(ds: seq<Token>, ops: seq<Token>, tail: seq<Token>)
    requires |ds| == |ops| + 1 && AllKind(ds, Num, Num) && Terminated(tail) && ExprFollow(tail[0])
    requires AllKind(ops, Plus, Minus) || AllKind(ops, Mult, Div)
    ensures Terminated(ChainTokens(ds, ops) + tail)
    ensures ExprL(ChainTokens(ds, ops) + tail) == Success(Parsed(LeftNest(ds, ops), tail))
  {
    ChainTokensSplit(ds, ops);
    var ts := ChainTokens(ds, ops) + tail;
    Regroup(ds[0], OpChain(ds[1..], ops), tail);
    assert ds[0] in ds;
    assert AllKind(ds[1..], Num, Num) by {
      assert forall t :: t in ds[1..] ==> t in ds;
    }
    if AllKind(ops, Plus, Minus) {
      SumChainNestsLeft(ds[0], ds[1..], ops, tail);
    } else {
      ProductChainNestsLeft(ds[0], ds[1..], ops, tail);
    }
  }
}
