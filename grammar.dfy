/** The grammar that parser.py implements, as concrete syntax trees:
      E  ::= E2 | E2 ('+' | '-') E
      E2 ::= E3 | E3 ('*' | '/') E2
      E3 ::= NUM | '(' E ')'
    Each syntax tree spells a token sequence (`TokensE`) and denotes the tree the parser builds for
    it (`AstE`): an operator's node takes the operator token's kind and value and the operands as
    children, and parentheses leave no node. This is the reference against which the parse
    functions are proved complete and sound. */
module Grammar {
  import opened Lexer
  import opened Parser

  datatype SynE = Sum(left: SynT, op: Token, right: SynE) | Single(term: SynT)
  datatype SynT = Product(left: SynF, op: Token, right: SynT) | Operand(factor: SynF)
  datatype SynF = Digit(num: Token) | Paren(open: Token, inner: SynE, close: Token)

  /** Every token in the syntax tree has the kind its position demands. */
  predicate ValidE(e: SynE) {
    match e
    case Sum(l, op, r) => ValidT(l) && (op.kind == Plus || op.kind == Minus) && ValidE(r)
    case Single(t) => ValidT(t)
  }

  predicate ValidT(t: SynT) {
    match t
    case Product(l, op, r) => ValidF(l) && (op.kind == Mult || op.kind == Div) && ValidT(r)
    case Operand(f) => ValidF(f)
  }

  predicate ValidF(f: SynF) {
    match f
    case Digit(n) => n.kind == Num
    case Paren(o, e, c) => o.kind == LPar && ValidE(e) && c.kind == RPar
  }

  function TokensE(e: SynE): seq<Token> {
    match e
    case Sum(l, op, r) => TokensT(l) + ([op] + TokensE(r))
    case Single(t) => TokensT(t)
  }

  function TokensT(t: SynT): seq<Token> {
    match t
    case Product(l, op, r) => TokensF(l) + ([op] + TokensT(r))
    case Operand(f) => TokensF(f)
  }

  function TokensF(f: SynF): seq<Token> {
    match f
    case Digit(n) => [n]
    case Paren(o, e, c) => [o] + (TokensE(e) + [c])
  }

  function AstE(e: SynE): Node {
    match e
    case Sum(l, op, r) => Node(op.kind, op.value, [AstT(l), AstE(r)])
    case Single(t) => AstT(t)
  }

  function AstT(t: SynT): Node {
    match t
    case Product(l, op, r) => Node(op.kind, op.value, [AstF(l), AstT(r)])
    case Operand(f) => AstF(f)
  }

  function AstF(f: SynF): Node {
    match f
    case Digit(n) => Leaf(n)
    case Paren(_, e, _) => AstE(e)
  }

  /** All tokens of a sequence are ones the lexer can produce. */
  predicate AllValid(ts: seq<Token>) {
    forall t :: t in ts ==> ValidToken(t)
  }

  /** The tokens of `ts` without its parentheses. */
  function Unparen(ts: seq<Token>): (r: seq<Token>)
    ensures |r| <= |ts|
  {
    if ts == [] then []
    else if ts[0].kind == LPar || ts[0].kind == RPar then Unparen(ts[1..])
    else [ts[0]] + Unparen(ts[1..])
  }

  /** The tokens of a binary tree read left operand, operator, right operand. */
  function InOrder(n: Node): seq<Token> {
    if |n.children| == 2 then InOrder(n.children[0]) + [Token(n.kind, n.value)] + InOrder(n.children[1])
    else [Token(n.kind, n.value)]
  }

  lemma {:induction false} UnparenAppend(a: seq<Token>, b: seq<Token>)
    ensures Unparen(a + b) == Unparen(a) + Unparen(b)
    decreases |a|
  {
    if a == [] {
      assert a + b == b;
    } else {
      assert (a + b)[0] == a[0];
      assert (a + b)[1..] == a[1..] + b;
      UnparenAppend(a[1..], b);
      if a[0].kind != LPar && a[0].kind != RPar {
        calc {
          Unparen(a + b);
          [a[0]] + Unparen(a[1..] + b);
          [a[0]] + (Unparen(a[1..]) + Unparen(b));
          ([a[0]] + Unparen(a[1..])) + Unparen(b);
        }
      }
    }
  }

  /** Trees denoted by syntax whose tokens come from the lexer are well formed. */
  lemma {:induction false} AstWellFormedE(e: SynE)
    requires ValidE(e) && AllValid(TokensE(e))
    ensures WellFormed(AstE(e))
  {
    match e
    case Sum(l, op, r) =>
      assert TokensE(e) == TokensT(l) + [op] + TokensE(r);
      AstWellFormedT(l);
      AstWellFormedE(r);
    case Single(t) =>
      AstWellFormedT(t);
  }

  lemma {:induction false} AstWellFormedT(t: SynT)
    requires ValidT(t) && AllValid(TokensT(t))
    ensures WellFormed(AstT(t))
  {
    match t
    case Product(l, op, r) =>
      assert TokensT(t) == TokensF(l) + [op] + TokensT(r);
      AstWellFormedF(l);
      AstWellFormedT(r);
    case Operand(f) =>
      AstWellFormedF(f);
  }

  lemma {:induction false} AstWellFormedF(f: SynF)
    requires ValidF(f) && AllValid(TokensF(f))
    ensures WellFormed(AstF(f))
  {
    match f
    case Digit(n) =>
    case Paren(o, e, c) =>
      AstWellFormedE(e);
  }

  /** Reading the denoted tree in order gives back the spelled tokens without their parentheses. */
  lemma {:induction false} InOrderE(e: SynE)
    requires ValidE(e)
    ensures InOrder(AstE(e)) == Unparen(TokensE(e))
  {
    match e
    case Sum(l, op, r) =>
      InOrderT(l);
      InOrderE(r);
      UnparenAppend(TokensT(l), [op] + TokensE(r));
      UnparenAppend([op], TokensE(r));
    case Single(t) =>
      InOrderT(t);
  }

  lemma {:induction false} InOrderT(t: SynT)
    requires ValidT(t)
    ensures InOrder(AstT(t)) == Unparen(TokensT(t))
  {
    match t
    case Product(l, op, r) =>
      InOrderF(l);
      InOrderT(r);
      UnparenAppend(TokensF(l), [op] + TokensT(r));
      UnparenAppend([op], TokensT(r));
    case Operand(f) =>
      InOrderF(f);
  }

  lemma {:induction false} InOrderF(f: SynF)
    requires ValidF(f)
    ensures InOrder(AstF(f)) == Unparen(TokensF(f))
  {
    match f
    case Digit(n) =>
    case Paren(o, e, c) =>
      InOrderE(e);
      UnparenAppend([o], TokensE(e) + [c]);
      UnparenAppend(TokensE(e), [c]);
  }
}
