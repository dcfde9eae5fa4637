/** The recursive-descent parser of parser.py.

    Grammar, as the code implements it (each level recurses into itself on the RIGHT):
      E  ::= E2 (('+' | '-') E)?
      E2 ::= E3 (('*' | '/') E2)?
      E3 ::= NUM | '(' E ')'

    The functions `Expr`, `ExprTail`, `Term`, `TermTail`, `Factor` and `Expect` say what each parse
    function returns for a given token sequence and which tokens remain; the class `TokenStream`
    is the shared token list that the parse functions pop from, and its methods are proved to
    agree with those functions. */
module Parser {
  import opened Wrappers
  import opened Lexer

  /** A successfully parsed subtree and the tokens still unread after it. */
  datatype Parsed = Parsed(node: Node, rest: seq<Token>)

  /** A token sequence that still holds its end marker last: the shape of every list the parse
      functions are given. */
  predicate Terminated(ts: seq<Token>) {
    |ts| > 0 && ts[|ts| - 1].kind == End
  }

  /** `rest` is what remains of `ts` after some of its front tokens were popped. */
  predicate Suffix(rest: seq<Token>, ts: seq<Token>) {
    |rest| <= |ts| && rest == ts[|ts| - |rest|..]
  }

  /** `rest` is what remains after at least one front token was popped. */
  predicate ProperSuffix(rest: seq<Token>, ts: seq<Token>) {
    |rest| < |ts| && rest == ts[|ts| - |rest|..]
  }

  /** The shape every tree the parser builds has: an operator node has exactly two children (left
      operand, right operand), a number is a childless leaf holding a digit, and every node carries
      the kind and value of a token the lexer can produce. */
  predicate WellFormed(n: Node) {
    ValidToken(Token(n.kind, n.value)) &&
    match n.kind
    case Num => n.children == []
    case Plus | Minus | Mult | Div => |n.children| == 2 && WellFormed(n.children[0]) && WellFormed(n.children[1])
    case _ => false
  }

  /** The leaf a number token becomes. */
  function Leaf(t: Token): Node {
    Node(t.kind, t.value, [])
  }

  /** `match`: pops the front token if it has the expected kind; otherwise a syntax error naming the
      front token's kind, with nothing popped. */
  function Expect(ts: seq<Token>, kind: TokenType): (r: Result<(Token, seq<Token>), ParseError>)
    requires ts != []
    ensures r.Success? <==> ts[0].kind == kind
    ensures r.Success? ==> r.value == (ts[0], ts[1..])
    ensures r.Failure? ==> r.error == SyntaxError(ts[0].kind)
  {
    if ts[0].kind == kind then Success((ts[0], ts[1..])) else Failure(SyntaxError(ts[0].kind))
  }

  /** `parse_e`. */
  function Expr(ts: seq<Token>): (r: Result<Parsed, ParseError>)
    requires Terminated(ts)
    ensures r.Success? ==> ProperSuffix(r.value.rest, ts) && Terminated(r.value.rest)
    decreases |ts|, 3
  {
    var left :- Term(ts);
    ExprTail(left.rest, left.node)
  }

  /** `parse_ea`: after an additive operator the right operand is a whole `parse_e` result. */
  function ExprTail(ts: seq<Token>, left: Node): (r: Result<Parsed, ParseError>)
    requires Terminated(ts)
    ensures r.Success? ==> Suffix(r.value.rest, ts) && Terminated(r.value.rest)
    decreases |ts|, 0
  {
    var kind := ts[0].kind;
    if kind == Plus || kind == Minus then
      var right :- Expr(ts[1..]);
      Success(Parsed(Node(kind, ts[0].value, [left, right.node]), right.rest))
    else if kind == RPar || kind == End then
      Success(Parsed(left, ts))
    else
      Failure(SyntaxError(kind))
  }

  /** `parse_e2`. */
  function Term(ts: seq<Token>): (r: Result<Parsed, ParseError>)
    requires Terminated(ts)
    ensures r.Success? ==> ProperSuffix(r.value.rest, ts) && Terminated(r.value.rest)
    decreases |ts|, 2
  {
    var left :- Factor(ts);
    TermTail(left.rest, left.node)
  }

  /** `parse_e2a`: after a multiplicative operator the right operand is a whole `parse_e2` result. */
  function TermTail(ts: seq<Token>, left: Node): (r: Result<Parsed, ParseError>)
    requires Terminated(ts)
    ensures r.Success? ==> Suffix(r.value.rest, ts) && Terminated(r.value.rest)
    decreases |ts|, 0
  {
    var kind := ts[0].kind;
    if kind == Mult || kind == Div then
      var right :- Term(ts[1..]);
      Success(Parsed(Node(kind, ts[0].value, [left, right.node]), right.rest))
    else if kind == Plus || kind == Minus || kind == End || kind == RPar then
      Success(Parsed(left, ts))
    else
      Failure(SyntaxError(kind))
  }

  /** `parse_e3`: a number, or a parenthesised expression whose parentheses leave no node behind. */
  function Factor(ts: seq<Token>): (r: Result<Parsed, ParseError>)
    requires Terminated(ts)
    ensures r.Success? ==> ProperSuffix(r.value.rest, ts) && Terminated(r.value.rest)
    decreases |ts|, 1
  {
    if ts[0].kind == Num then
      Success(Parsed(Leaf(ts[0]), ts[1..]))
    else
      var open :- Expect(ts, LPar);
      var inner :- Expr(open.1);
      var close :- Expect(inner.rest, RPar);
      Success(Parsed(inner.node, close.1))
  }

  /** `parse` after lexing: an expression, then the end marker. */
  function ParseTokens(ts: seq<Token>): (r: Result<Node, ParseError>)
    requires Terminated(ts)
  {
    var e :- Expr(ts);
    var end :- Expect(e.rest, End);
    Success(e.node)
  }

  /** `parse`: lex the input string, then parse its tokens. */
  function ParseString(s: string): (r: Result<Node, ParseError>)
  {
    var ts :- Lex(s);
    ParseTokens(ts)
  }

  /** A parse method's outcome agrees with the specification: the same node and the same unread
      tokens on success, the same error on failure. */
  predicate Agrees(r: Result<Node, ParseError>, tokens: seq<Token>, spec: Result<Parsed, ParseError>) {
    match spec
    case Success(p) => r == Success(p.node) && tokens == p.rest
    case Failure(e) => r == Failure(e)
  }

  /** The token list shared by all parse functions; they consume it from the front. */
  class TokenStream {
    var tokens: seq<Token>

    constructor (ts: seq<Token>)
      ensures tokens == ts
    {
      tokens := ts;
    }

    /** `tokens.pop(0)`. */
    method Pop() returns (t: Token)
      requires tokens != []
      modifies this
      ensures t == old(tokens[0]) && tokens == old(tokens[1..])
    {
      t := tokens[0];
      tokens := tokens[1..];
    }

    /** `match`. */
    method Match(kind: TokenType) returns (r: Result<Token, ParseError>)
      requires tokens != []
      modifies this
      ensures r.Success? <==> old(tokens[0].kind) == kind
      ensures r.Success? ==> r.value == old(tokens[0]) && tokens == old(tokens[1..])
      ensures r.Failure? ==> r.error == SyntaxError(old(tokens[0].kind)) && tokens == old(tokens)
    {
      if tokens[0].kind == kind {
        var t := Pop();
        return Success(t);
      }
      return Failure(SyntaxError(tokens[0].kind));
    }

    /** `parse_e`. */
    method ParseE() returns (r: Result<Node, ParseError>)
      requires Terminated(tokens)
      modifies this
      ensures Agrees(r, tokens, Expr(old(tokens)))
      decreases |tokens|, 3
    {
      var left :- ParseE2();
      r := ParseEA(left);
    }

    /** `parse_ea`. */
    method ParseEA(left: Node) returns (r: Result<Node, ParseError>)
      requires Terminated(tokens)
      modifies this
      ensures Agrees(r, tokens, ExprTail(old(tokens), left))
      decreases |tokens|, 0
    {
      var kind := tokens[0].kind;
      if kind == Plus || kind == Minus {
        var node := Pop();
        var right :- ParseE();
        r := Success(Node(node.kind, node.value, [left, right]));
      } else if kind == RPar || kind == End {
        r := Success(left);
      } else {
        r := Failure(SyntaxError(kind));
      }
    }

    /** `parse_e2`. */
    method ParseE2() returns (r: Result<Node, ParseError>)
      requires Terminated(tokens)
      modifies this
      ensures Agrees(r, tokens, Term(old(tokens)))
      decreases |tokens|, 2
    {
      var left :- ParseE3();
      r := ParseE2A(left);
    }

    /** `parse_e2a`. */
    method ParseE2A(left: Node) returns (r: Result<Node, ParseError>)
      requires Terminated(tokens)
      modifies this
      ensures Agrees(r, tokens, TermTail(old(tokens), left))
      decreases |tokens|, 0
    {
      var kind := tokens[0].kind;
      if kind == Mult || kind == Div {
        var node := Pop();
        var right :- ParseE2();
        r := Success(Node(node.kind, node.value, [left, right]));
      } else if kind == Plus || kind == Minus || kind == End || kind == RPar {
        r := Success(left);
      } else {
        r := Failure(SyntaxError(kind));
      }
    }

    /** `parse_e3`. */
    method ParseE3() returns (r: Result<Node, ParseError>)
      requires Terminated(tokens)
      modifies this
      ensures Agrees(r, tokens, Factor(old(tokens)))
      decreases |tokens|, 1
    {
      if tokens[0].kind == Num {
        var t := Pop();
        return Success(Leaf(t));
      }
      var open :- Match(LPar);
      var node :- ParseE();
      var close :- Match(RPar);
      r := Success(node);
    }
  }

  /** `parse`: lexes the input, parses an expression from the token list, then matches the end marker. */
  method Parse(inputstring: string) returns (r: Result<Node, ParseError>)
    ensures r == ParseString(inputstring)
  {
    var tokens :- LexicalAnalysis(inputstring);
    var stream := new TokenStream(tokens);
    var ast :- stream.ParseE();
    var end :- stream.Match(End);
    r := Success(ast);
  }
}
