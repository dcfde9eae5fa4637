/** The scenarios of test.py: parse a string, evaluate the tree, compare with the expected value. */
module Tests {
  import opened Wrappers
  import opened Lexer
  import opened Parser
  import opened Grammar
  import opened ParserProperties
  import opened Evaluator
  import opened LeftAssoc
  import opened Graphviz

  /** Why parse-then-compute can fail: the parser raised, or the evaluator divided by zero. */
  datatype CalcError = SyntaxFailure(parse: ParseError) | ArithmeticFailure(eval: EvalError)

  /** `test_computation` without its final comparison: `compute(parse(s))`. */
  function Calculate(s: string): (r: Result<real, CalcError>)
    ensures ParseString(s).Failure? <==> r.Failure? && r.error.SyntaxFailure?
    ensures ParseString(s).Failure? ==> r.error.parse == ParseString(s).error
    ensures ParseString(s).Success? && r.Failure? ==> HasDiv(ParseString(s).value)
  {
    match ParseString(s)
    case Failure(e) => Failure(SyntaxFailure(e))
    case Success(n) =>
      ParsedTreeShape(s);
      match Compute(n)
      case Failure(e) => Failure(ArithmeticFailure(e))
      case Success(v) => Success(v)
  }

  // Syntax trees for the test inputs.

  function Dig(d: int): SynF {
    Digit(Token(Num, Number(d)))
  }

  function T(f: SynF): SynT {
    Operand(f)
  }

  function E(t: SynT): SynE {
    Single(t)
  }

  function Add(l: SynT, r: SynE): SynE {
    Sum(l, Token(Plus, Symbol('+')), r)
  }

  function Sub(l: SynT, r: SynE): SynE {
    Sum(l, Token(Minus, Symbol('-')), r)
  }

  function Mul(l: SynF, r: SynT): SynT {
    Product(l, Token(Mult, Symbol('*')), r)
  }

  function Quot(l: SynF, r: SynT): SynT {
    Product(l, Token(Div, Symbol('/')), r)
  }

  function Par(e: SynE): SynF {
    Paren(Token(LPar, Symbol('(')), e, Token(RPar, Symbol(')')))
  }

  /** A string whose characters lex one by one to the given tokens lexes to them plus the end token. */
  lemma LexesTo(s: string, ts: seq<Token>)
    requires |ts| == |s| && forall i :: 0 <= i < |s| ==> CharToken(s[i]) == Some(ts[i])
    ensures Lex(s) == Success(ts + [EndToken])
  {
    var r := Lex(s);
    assert r.Success?;
    assert r.value == ts + [EndToken];
  }

  /** A string that spells a syntax tree parses to the tree the syntax tree denotes. */
  lemma ParsesAs(s: string, e: SynE)
    requires ValidE(e) && |TokensE(e)| == |s|
    requires forall i :: 0 <= i < |s| ==> CharToken(s[i]) == Some(TokensE(e)[i])
    ensures ParseString(s) == Success(AstE(e))
  {
    LexesTo(s, TokensE(e));
    CompleteE(e, [EndToken]);
  }

  /** A string that lexes to the spelling of a syntax tree calculates to the value of the tree it
      denotes. */
  lemma CalculatesTo(s: string, ts: seq<Token>, e: SynE)
    requires ValidE(e) && TokensE(e) == ts && Lex(s) == Success(ts + [EndToken])
    ensures WellFormed(AstE(e))
    ensures Calculate(s) == match Compute(AstE(e))
                            case Success(v) => Success(v)
                            case Failure(x) => Failure(ArithmeticFailure(x))
  {
    CompleteE(e, [EndToken]);
    assert ParseString(s) == Success(AstE(e));
    ParsedTreeShape(s);
  }

  const OnePlusOneTree := Add(T(Dig(1)), E(T(Dig(1))))
  const OnePlusOneTokens :=
    [Token(Num, Number(1)), Token(Plus, Symbol('+')), Token(Num, Number(1))]

  lemma OnePlusOneSpells()
    ensures ValidE(OnePlusOneTree) && TokensE(OnePlusOneTree) == OnePlusOneTokens
  {
  }

  lemma OnePlusOneEvaluates()
    ensures WellFormed(AstE(OnePlusOneTree)) && Compute(AstE(OnePlusOneTree)) == Success(2.0)
  {
  }

  /** `1+1` is 2 (test.py:12). */
  lemma OnePlusOne()
    ensures Calculate("1+1") == Success(2.0)
  {
    LexesTo("1+1", OnePlusOneTokens);
    OnePlusOneSpells();
    OnePlusOneEvaluates();
    CalculatesTo("1+1", OnePlusOneTokens, OnePlusOneTree);
  }

  const OneMinusOneTree := Sub(T(Dig(1)), E(T(Dig(1))))
  const OneMinusOneTokens :=
    [Token(Num, Number(1)), Token(Minus, Symbol('-')), Token(Num, Number(1))]

  lemma OneMinusOneSpells()
    ensures ValidE(OneMinusOneTree) && TokensE(OneMinusOneTree) == OneMinusOneTokens
  {
  }

  lemma OneMinusOneEvaluates()
    ensures WellFormed(AstE(OneMinusOneTree)) && Compute(AstE(OneMinusOneTree)) == Success(0.0)
  {
  }

  /** `1-1` is 0 (test.py:13). */
  lemma OneMinusOne()
    ensures Calculate("1-1") == Success(0.0)
  {
    LexesTo("1-1", OneMinusOneTokens);
    OneMinusOneSpells();
    OneMinusOneEvaluates();
    CalculatesTo("1-1", OneMinusOneTokens, OneMinusOneTree);
  }

  const OneTimesTwoTree := E(Mul(Dig(1), T(Dig(2))))
  const OneTimesTwoTokens :=
    [Token(Num, Number(1)), Token(Mult, Symbol('*')), Token(Num, Number(2))]

  lemma OneTimesTwoSpells()
    ensures ValidE(OneTimesTwoTree) && TokensE(OneTimesTwoTree) == OneTimesTwoTokens
  {
  }

  lemma OneTimesTwoEvaluates()
    ensures WellFormed(AstE(OneTimesTwoTree)) && Compute(AstE(OneTimesTwoTree)) == Success(2.0)
  {
  }

  /** `1*2` is 2 (test.py:16). */
  lemma OneTimesTwo()
    ensures Calculate("1*2") == Success(2.0)
  {
    LexesTo("1*2", OneTimesTwoTokens);
    OneTimesTwoSpells();
    OneTimesTwoEvaluates();
    CalculatesTo("1*2", OneTimesTwoTokens, OneTimesTwoTree);
  }

  const ProductOfSumsTree := E(Mul(Par(Add(T(Dig(1)), E(T(Dig(7))))), T(Par(Add(T(Dig(9)), E(T(Dig(2))))))))
  const ProductOfSumsTokens :=
    [Token(LPar, Symbol('(')), Token(Num, Number(1)), Token(Plus, Symbol('+')), Token(Num, Number(7)),
     Token(RPar, Symbol(')')), Token(Mult, Symbol('*')), Token(LPar, Symbol('(')), Token(Num, Number(9)),
     Token(Plus, Symbol('+')), Token(Num, Number(2)), Token(RPar, Symbol(')'))]

  lemma ProductOfSumsSpells()
    ensures ValidE(ProductOfSumsTree) && TokensE(ProductOfSumsTree) == ProductOfSumsTokens
  {
    var a, b := Add(T(Dig(1)), E(T(Dig(7)))), Add(T(Dig(9)), E(T(Dig(2))));
    assert ValidE(a) && TokensE(a) == [Token(Num, Number(1)), Token(Plus, Symbol('+')), Token(Num, Number(7))];
    assert ValidE(b) && TokensE(b) == [Token(Num, Number(9)), Token(Plus, Symbol('+')), Token(Num, Number(2))];
  }

  lemma ProductOfSumsEvaluates()
    ensures WellFormed(AstE(ProductOfSumsTree)) && Compute(AstE(ProductOfSumsTree)) == Success(88.0)
  {
    var a, b := Add(T(Dig(1)), E(T(Dig(7)))), Add(T(Dig(9)), E(T(Dig(2))));
    assert Compute(AstE(a)) == Success(8.0);
    assert Compute(AstE(b)) == Success(11.0);
    assert AstE(ProductOfSumsTree) == Node(Mult, Symbol('*'), [AstE(a), AstE(b)]);
  }

  /** `(1+7)*(9+2)` is 88 (test.py:17). */
  lemma ProductOfSums()
    ensures Calculate("(1+7)*(9+2)") == Success(88.0)
  {
    LexesTo("(1+7)*(9+2)", ProductOfSumsTokens);
    ProductOfSumsSpells();
    ProductOfSumsEvaluates();
    CalculatesTo("(1+7)*(9+2)", ProductOfSumsTokens, ProductOfSumsTree);
  }

  const SumOverFourTree := E(Quot(Par(Add(T(Dig(2)), E(T(Dig(7))))), T(Dig(4))))
  const SumOverFourTokens :=
    [Token(LPar, Symbol('(')), Token(Num, Number(2)), Token(Plus, Symbol('+')), Token(Num, Number(7)),
     Token(RPar, Symbol(')')), Token(Div, Symbol('/')), Token(Num, Number(4))]

  lemma SumOverFourSpells()
    ensures ValidE(SumOverFourTree) && TokensE(SumOverFourTree) == SumOverFourTokens
  {
  }

  lemma SumOverFourEvaluates()
    ensures WellFormed(AstE(SumOverFourTree)) && Compute(AstE(SumOverFourTree)) == Success(2.25)
  {
    var a := Add(T(Dig(2)), E(T(Dig(7))));
    assert Compute(AstE(a)) == Success(9.0);
    assert AstE(SumOverFourTree) == Node(Div, Symbol('/'), [AstE(a), Leaf(Token(Num, Number(4)))]);
  }

  /** `(2+7)/4` is 2.25: `/` does not truncate (test.py:18). */
  lemma SumOverFour()
    ensures Calculate("(2+7)/4") == Success(2.25)
  {
    LexesTo("(2+7)/4", SumOverFourTokens);
    SumOverFourSpells();
    SumOverFourEvaluates();
    CalculatesTo("(2+7)/4", SumOverFourTokens, SumOverFourTree);
  }

  const SevenOverFourTree := E(Quot(Dig(7), T(Dig(4))))
  const SevenOverFourTokens :=
    [Token(Num, Number(7)), Token(Div, Symbol('/')), Token(Num, Number(4))]

  lemma SevenOverFourSpells()
    ensures ValidE(SevenOverFourTree) && TokensE(SevenOverFourTree) == SevenOverFourTokens
  {
  }

  lemma SevenOverFourEvaluates()
    ensures WellFormed(AstE(SevenOverFourTree)) && Compute(AstE(SevenOverFourTree)) == Success(1.75)
  {
  }

  /** `7/4` is 1.75 (test.py:19). */
  lemma SevenOverFour()
    ensures Calculate("7/4") == Success(1.75)
  {
    LexesTo("7/4", SevenOverFourTokens);
    SevenOverFourSpells();
    SevenOverFourEvaluates();
    CalculatesTo("7/4", SevenOverFourTokens, SevenOverFourTree);
  }

  const ProductThenSumTree := Add(Mul(Dig(2), T(Dig(3))), E(T(Dig(4))))
  const ProductThenSumTokens :=
    [Token(Num, Number(2)), Token(Mult, Symbol('*')), Token(Num, Number(3)), Token(Plus, Symbol('+')),
     Token(Num, Number(4))]

  lemma ProductThenSumSpells()
    ensures ValidE(ProductThenSumTree) && TokensE(ProductThenSumTree) == ProductThenSumTokens
  {
  }

  lemma ProductThenSumEvaluates()
    ensures WellFormed(AstE(ProductThenSumTree)) && Compute(AstE(ProductThenSumTree)) == Success(10.0)
  {
    var a := Mul(Dig(2), T(Dig(3)));
    assert Compute(AstT(a)) == Success(6.0);
    assert AstE(ProductThenSumTree) == Node(Plus, Symbol('+'), [AstT(a), Leaf(Token(Num, Number(4)))]);
  }

  /** `2*3+4` is `+(*(2,3),4)`, which is 10 (test.py:20). */
  lemma ProductThenSum()
    ensures Calculate("2*3+4") == Success(10.0)
  {
    LexesTo("2*3+4", ProductThenSumTokens);
    ProductThenSumSpells();
    ProductThenSumEvaluates();
    CalculatesTo("2*3+4", ProductThenSumTokens, ProductThenSumTree);
  }

  const ProductOfParenthesisedSumTree := E(Mul(Dig(2), T(Par(Add(T(Dig(3)), E(T(Dig(4))))))))
  const ProductOfParenthesisedSumTokens :=
    [Token(Num, Number(2)), Token(Mult, Symbol('*')), Token(LPar, Symbol('(')), Token(Num, Number(3)),
     Token(Plus, Symbol('+')), Token(Num, Number(4)), Token(RPar, Symbol(')'))]

  lemma ProductOfParenthesisedSumSpells()
    ensures ValidE(ProductOfParenthesisedSumTree) && TokensE(ProductOfParenthesisedSumTree) == ProductOfParenthesisedSumTokens
  {
  }

  lemma ProductOfParenthesisedSumEvaluates()
    ensures WellFormed(AstE(ProductOfParenthesisedSumTree)) && Compute(AstE(ProductOfParenthesisedSumTree)) == Success(14.0)
  {
    var a := Add(T(Dig(3)), E(T(Dig(4))));
    assert Compute(AstE(a)) == Success(7.0);
    assert AstE(ProductOfParenthesisedSumTree) == Node(Mult, Symbol('*'), [Leaf(Token(Num, Number(2))), AstE(a)]);
  }

  /** `2*(3+4)` is 14 (test.py:21). */
  lemma ProductOfParenthesisedSum()
    ensures Calculate("2*(3+4)") == Success(14.0)
  {
    LexesTo("2*(3+4)", ProductOfParenthesisedSumTokens);
    ProductOfParenthesisedSumSpells();
    ProductOfParenthesisedSumEvaluates();
    CalculatesTo("2*(3+4)", ProductOfParenthesisedSumTokens, ProductOfParenthesisedSumTree);
  }

  const SumThenProductTree := Add(T(Dig(2)), E(Mul(Dig(3), T(Dig(4)))))
  const SumThenProductTokens :=
    [Token(Num, Number(2)), Token(Plus, Symbol('+')), Token(Num, Number(3)), Token(Mult, Symbol('*')),
     Token(Num, Number(4))]

  lemma SumThenProductSpells()
    ensures ValidE(SumThenProductTree) && TokensE(SumThenProductTree) == SumThenProductTokens
  {
  }

  lemma SumThenProductEvaluates()
    ensures WellFormed(AstE(SumThenProductTree)) && Compute(AstE(SumThenProductTree)) == Success(14.0)
  {
    var a := Mul(Dig(3), T(Dig(4)));
    assert Compute(AstT(a)) == Success(12.0);
    assert AstE(SumThenProductTree) == Node(Plus, Symbol('+'), [Leaf(Token(Num, Number(2))), AstT(a)]);
  }

  /** `2+3*4` is 14: `*` binds tighter (test.py:22). */
  lemma SumThenProduct()
    ensures Calculate("2+3*4") == Success(14.0)
  {
    LexesTo("2+3*4", SumThenProductTokens);
    SumThenProductSpells();
    SumThenProductEvaluates();
    CalculatesTo("2+3*4", SumThenProductTokens, SumThenProductTree);
  }

  const SumOfParenthesisedProductTree := Add(T(Dig(2)), E(T(Par(E(Mul(Dig(3), T(Dig(4))))))))
  const SumOfParenthesisedProductTokens :=
    [Token(Num, Number(2)), Token(Plus, Symbol('+')), Token(LPar, Symbol('(')), Token(Num, Number(3)),
     Token(Mult, Symbol('*')), Token(Num, Number(4)), Token(RPar, Symbol(')'))]

  lemma SumOfParenthesisedProductSpells()
    ensures ValidE(SumOfParenthesisedProductTree) && TokensE(SumOfParenthesisedProductTree) == SumOfParenthesisedProductTokens
  {
  }

  lemma SumOfParenthesisedProductEvaluates()
    ensures WellFormed(AstE(SumOfParenthesisedProductTree)) && Compute(AstE(SumOfParenthesisedProductTree)) == Success(14.0)
  {
    var a := E(Mul(Dig(3), T(Dig(4))));
    assert Compute(AstE(a)) == Success(12.0);
    assert AstE(SumOfParenthesisedProductTree) == Node(Plus, Symbol('+'), [Leaf(Token(Num, Number(2))), AstE(a)]);
  }

  /** `2+(3*4)` is 14 (test.py:23). */
  lemma SumOfParenthesisedProduct()
    ensures Calculate("2+(3*4)") == Success(14.0)
  {
    LexesTo("2+(3*4)", SumOfParenthesisedProductTokens);
    SumOfParenthesisedProductSpells();
    SumOfParenthesisedProductEvaluates();
    CalculatesTo("2+(3*4)", SumOfParenthesisedProductTokens, SumOfParenthesisedProductTree);
  }

  const DifferenceOfNestedTree := Sub(T(Dig(2)), E(T(Par(Add(Mul(Dig(3), T(Dig(4))), E(T(Dig(1))))))))
  const DifferenceOfNestedTokens :=
    [Token(Num, Number(2)), Token(Minus, Symbol('-')), Token(LPar, Symbol('(')), Token(Num, Number(3)),
     Token(Mult, Symbol('*')), Token(Num, Number(4)), Token(Plus, Symbol('+')), Token(Num, Number(1)),
     Token(RPar, Symbol(')'))]

  lemma DifferenceOfNestedSpells()
    ensures ValidE(DifferenceOfNestedTree) && TokensE(DifferenceOfNestedTree) == DifferenceOfNestedTokens
  {
    var a := Add(Mul(Dig(3), T(Dig(4))), E(T(Dig(1))));
    assert ValidE(a) && TokensE(a) == [Token(Num, Number(3)), Token(Mult, Symbol('*')), Token(Num, Number(4)), Token(Plus, Symbol('+')), Token(Num, Number(1))];
  }

  lemma DifferenceOfNestedEvaluates()
    ensures WellFormed(AstE(DifferenceOfNestedTree)) && Compute(AstE(DifferenceOfNestedTree)) == Success(-11.0)
  {
    var a := Mul(Dig(3), T(Dig(4)));
    assert Compute(AstT(a)) == Success(12.0);
    var b := Add(a, E(T(Dig(1))));
    assert AstE(b) == Node(Plus, Symbol('+'), [AstT(a), Leaf(Token(Num, Number(1)))]);
    assert Compute(AstE(b)) == Success(13.0);
    assert AstE(DifferenceOfNestedTree) == Node(Minus, Symbol('-'), [Leaf(Token(Num, Number(2))), AstE(b)]);
  }

  /** `2-(3*4+1)` is -11 (test.py:24). */
  lemma DifferenceOfNested()
    ensures Calculate("2-(3*4+1)") == Success(-11.0)
  {
    LexesTo("2-(3*4+1)", DifferenceOfNestedTokens);
    DifferenceOfNestedSpells();
    DifferenceOfNestedEvaluates();
    CalculatesTo("2-(3*4+1)", DifferenceOfNestedTokens, DifferenceOfNestedTree);
  }

  const ProductOfNestedTree := E(Mul(Dig(2), T(Par(Add(Mul(Dig(3), T(Dig(4))), E(T(Dig(1))))))))
  const ProductOfNestedTokens :=
    [Token(Num, Number(2)), Token(Mult, Symbol('*')), Token(LPar, Symbol('(')), Token(Num, Number(3)),
     Token(Mult, Symbol('*')), Token(Num, Number(4)), Token(Plus, Symbol('+')), Token(Num, Number(1)),
     Token(RPar, Symbol(')'))]

  lemma ProductOfNestedSpells()
    ensures ValidE(ProductOfNestedTree) && TokensE(ProductOfNestedTree) == ProductOfNestedTokens
  {
    var a := Add(Mul(Dig(3), T(Dig(4))), E(T(Dig(1))));
    assert ValidE(a) && TokensE(a) == [Token(Num, Number(3)), Token(Mult, Symbol('*')), Token(Num, Number(4)), Token(Plus, Symbol('+')), Token(Num, Number(1))];
  }

  lemma ProductOfNestedEvaluates()
    ensures WellFormed(AstE(ProductOfNestedTree)) && Compute(AstE(ProductOfNestedTree)) == Success(26.0)
  {
    var a := Mul(Dig(3), T(Dig(4)));
    assert Compute(AstT(a)) == Success(12.0);
    var b := Add(a, E(T(Dig(1))));
    assert AstE(b) == Node(Plus, Symbol('+'), [AstT(a), Leaf(Token(Num, Number(1)))]);
    assert Compute(AstE(b)) == Success(13.0);
    assert AstE(ProductOfNestedTree) == Node(Mult, Symbol('*'), [Leaf(Token(Num, Number(2))), AstE(b)]);
  }

  /** `2*(3*4+1)` is 26 (test.py:25). */
  lemma ProductOfNested()
    ensures Calculate("2*(3*4+1)") == Success(26.0)
  {
    LexesTo("2*(3*4+1)", ProductOfNestedTokens);
    ProductOfNestedSpells();
    ProductOfNestedEvaluates();
    CalculatesTo("2*(3*4+1)", ProductOfNestedTokens, ProductOfNestedTree);
  }

  const QuotientOfNestedTree := E(Quot(Dig(8), T(Par(E(Mul(Par(Add(T(Dig(1)), E(T(Dig(3))))), T(Dig(2))))))))
  const QuotientOfNestedTokens :=
    [Token(Num, Number(8)), Token(Div, Symbol('/')), Token(LPar, Symbol('(')), Token(LPar, Symbol('(')),
     Token(Num, Number(1)), Token(Plus, Symbol('+')), Token(Num, Number(3)), Token(RPar, Symbol(')')),
     Token(Mult, Symbol('*')), Token(Num, Number(2)), Token(RPar, Symbol(')'))]

  lemma QuotientOfNestedSpells()
    ensures ValidE(QuotientOfNestedTree) && TokensE(QuotientOfNestedTree) == QuotientOfNestedTokens
  {
    var a := Add(T(Dig(1)), E(T(Dig(3))));
    assert ValidE(a) && TokensE(a) == [Token(Num, Number(1)), Token(Plus, Symbol('+')), Token(Num, Number(3))];
    var b := Mul(Par(a), T(Dig(2)));
    assert ValidT(b) && TokensT(b) == [Token(LPar, Symbol('('))] + TokensE(a) + [Token(RPar, Symbol(')')), Token(Mult, Symbol('*')), Token(Num, Number(2))];
  }

  lemma QuotientOfNestedEvaluates()
    ensures WellFormed(AstE(QuotientOfNestedTree)) && Compute(AstE(QuotientOfNestedTree)) == Success(1.0)
  {
    var a := Add(T(Dig(1)), E(T(Dig(3))));
    assert Compute(AstE(a)) == Success(4.0);
    var b := E(Mul(Par(a), T(Dig(2))));
    assert AstE(b) == Node(Mult, Symbol('*'), [AstE(a), Leaf(Token(Num, Number(2)))]);
    assert Compute(AstE(b)) == Success(8.0);
    assert AstE(QuotientOfNestedTree) == Node(Div, Symbol('/'), [Leaf(Token(Num, Number(8))), AstE(b)]);
  }

  /** `8/((1+3)*2)` is 1 (test.py:26). */
  lemma QuotientOfNested()
    ensures Calculate("8/((1+3)*2)") == Success(1.0)
  {
    LexesTo("8/((1+3)*2)", QuotientOfNestedTokens);
    QuotientOfNestedSpells();
    QuotientOfNestedEvaluates();
    CalculatesTo("8/((1+3)*2)", QuotientOfNestedTokens, QuotientOfNestedTree);
  }

  const DivisionByZeroRaisesTree := E(Quot(Dig(1), T(Par(Sub(T(Dig(1)), E(T(Dig(1))))))))
  const DivisionByZeroRaisesTokens :=
    [Token(Num, Number(1)), Token(Div, Symbol('/')), Token(LPar, Symbol('(')), Token(Num, Number(1)),
     Token(Minus, Symbol('-')), Token(Num, Number(1)), Token(RPar, Symbol(')'))]

  lemma DivisionByZeroRaisesSpells()
    ensures ValidE(DivisionByZeroRaisesTree) && TokensE(DivisionByZeroRaisesTree) == DivisionByZeroRaisesTokens
  {
  }

  lemma DivisionByZeroRaisesEvaluates()
    ensures WellFormed(AstE(DivisionByZeroRaisesTree)) && Compute(AstE(DivisionByZeroRaisesTree)) == Failure(ZeroDivisionError)
  {
    var a := Sub(T(Dig(1)), E(T(Dig(1))));
    assert Compute(AstE(a)) == Success(0.0);
    assert AstE(DivisionByZeroRaisesTree) == Node(Div, Symbol('/'), [Leaf(Token(Num, Number(1))), AstE(a)]);
  }

  /** Division by a parenthesised zero value parses, and evaluation raises. */
  lemma DivisionByZeroRaises()
    ensures Calculate("1/(1-1)") == Failure(ArithmeticFailure(ZeroDivisionError))
  {
    LexesTo("1/(1-1)", DivisionByZeroRaisesTokens);
    DivisionByZeroRaisesSpells();
    DivisionByZeroRaisesEvaluates();
    CalculatesTo("1/(1-1)", DivisionByZeroRaisesTokens, DivisionByZeroRaisesTree);
  }

  /** A string whose tokens fail to parse fails to calculate with that parse error. */
  lemma FailsToParse(s: string, ts: seq<Token>, err: ParseError)
    requires Lex(s) == Success(ts + [EndToken]) && ParseTokens(ts + [EndToken]) == Failure(err)
    ensures Calculate(s) == Failure(SyntaxFailure(err))
  {
    assert ParseString(s) == Failure(err);
  }

  /** A closing parenthesis with no opening one is left over after `parse_e`, so the final
      `match(T_END)` raises (test.py:28-33). */
  lemma UnbalancedParenthesisRaises()
    ensures Calculate("1+1)") == Failure(SyntaxFailure(SyntaxError(RPar)))
  {
    var e := Add(T(Dig(1)), E(T(Dig(1))));
    var close := Token(RPar, Symbol(')'));
    var ts := [Token(Num, Number(1)), Token(Plus, Symbol('+')), Token(Num, Number(1)), close];
    LexesTo("1+1)", ts);
    assert ValidE(e) && TokensE(e) == ts[..3];
    assert ts + [EndToken] == TokensE(e) + [close, EndToken];
    CompleteE(e, [close, EndToken]);
    FailsToParse("1+1)", ts, SyntaxError(RPar));
  }

  /** The empty string lexes to the end token alone, where a factor cannot start. */
  lemma EmptyInputRaises()
    ensures Calculate("") == Failure(SyntaxFailure(SyntaxError(End)))
  {
    LexesTo("", []);
    assert [] + [EndToken] == [EndToken];
    assert Factor([EndToken]) == Failure(SyntaxError(End));
    assert Term([EndToken]) == Failure(SyntaxError(End));
    assert Expr([EndToken]) == Failure(SyntaxError(End));
    FailsToParse("", [], SyntaxError(End));
  }

  /** Two adjacent digits: the second is neither an operator nor a follow token. */
  lemma AdjacentDigitsRaise()
    ensures Calculate("12") == Failure(SyntaxFailure(SyntaxError(Num)))
  {
    var ds := [Token(Num, Number(1)), Token(Num, Number(2))];
    LexesTo("12", ds);
    var ts := ds + [EndToken];
    assert ts[1..] == [ds[1], EndToken];
    assert Factor(ts) == Success(Parsed(Leaf(ds[0]), ts[1..]));
    RejectedAfterFactor(ts);
    FailsToParse("12", ds, SyntaxError(Num));
  }

  /** Whitespace is not a token. */
  lemma SpaceIsInvalid()
    ensures Calculate("1 + 1") == Failure(SyntaxFailure(InvalidToken(' ')))
  {
    FailsAtFirstInvalid("1 + 1", 1);
  }

  // Same-precedence chains: the code groups them to the right, test.py:14-15 expects the left.

  const Three := Token(Num, Number(3))
  const Two := Token(Num, Number(2))
  const One := Token(Num, Number(1))
  const Eight := Token(Num, Number(8))
  const Four := Token(Num, Number(4))
  const PlusTok := Token(Plus, Symbol('+'))
  const MinusTok := Token(Minus, Symbol('-'))
  const DivTok := Token(Div, Symbol('/'))

  /** A chain of three digits, its two groupings. */
  lemma ThreeChain(a: Token, b: Token, c: Token, o1: Token, o2: Token)
    ensures ChainTokens([a, b, c], [o1, o2]) == [a, o1, b, o2, c]
    ensures RightNest([a, b, c], [o1, o2]) == Node(o1.kind, o1.value, [Leaf(a), Node(o2.kind, o2.value, [Leaf(b), Leaf(c)])])
    ensures LeftNest([a, b, c], [o1, o2]) == Node(o2.kind, o2.value, [Node(o1.kind, o1.value, [Leaf(a), Leaf(b)]), Leaf(c)])
  {
    assert [a, b, c][1..] == [b, c] && [b, c][1..] == [c];
    assert [o1, o2][1..] == [o2] && [o2][1..] == [];
    assert ChainTokens([c], []) == [c];
    assert ChainTokens([b, c], [o2]) == [b, o2] + [c];
    assert ChainTokens([a, b, c], [o1, o2]) == [a, o1] + [b, o2, c];
    assert RightNest([b, c], [o2]) == Node(o2.kind, o2.value, [Leaf(b), Leaf(c)]);
    var inner := Node(o1.kind, o1.value, [Leaf(a), Leaf(b)]);
    assert FoldLeft(inner, [c], [o2]) == FoldLeft(Node(o2.kind, o2.value, [inner, Leaf(c)]), [], []);
  }

  /** A string that lexes to a same-precedence chain calculates the chain grouped to the right. */
  lemma ChainCalculatesRight(s: string, ds: seq<Token>, ops: seq<Token>)
    requires |ds| == |ops| + 1 && AllKind(ds, Num, Num) && (AllKind(ops, Plus, Minus) || AllKind(ops, Mult, Div))
    requires Lex(s) == Success(ChainTokens(ds, ops) + [EndToken])
    ensures WellFormed(RightNest(ds, ops))
    ensures Calculate(s) == match Compute(RightNest(ds, ops))
                            case Success(v) => Success(v)
                            case Failure(x) => Failure(ArithmeticFailure(x))
  {
    ChainsNestRight(ds, ops, [EndToken]);
    assert ParseString(s) == Success(RightNest(ds, ops));
    ParsedTreeShape(s);
  }

  /** With the corrected parser the same string parses to the chain grouped to the left. */
  lemma ChainParsesLeft(s: string, ds: seq<Token>, ops: seq<Token>)
    requires |ds| == |ops| + 1 && AllKind(ds, Num, Num) && (AllKind(ops, Plus, Minus) || AllKind(ops, Mult, Div))
    requires Lex(s) == Success(ChainTokens(ds, ops) + [EndToken])
    ensures ParseStringL(s) == Success(LeftNest(ds, ops))
  {
    ChainsNestLeft(ds, ops, [EndToken]);
  }

  /** `3-(2+1)` and `8/(4/2)`, the trees the parser builds for `3-2+1` and `8/4/2`. */
  const SubtractionRight := Node(Minus, Symbol('-'), [Leaf(Three), Node(Plus, Symbol('+'), [Leaf(Two), Leaf(One)])])
  const DivisionRight := Node(Div, Symbol('/'), [Leaf(Eight), Node(Div, Symbol('/'), [Leaf(Four), Leaf(Two)])])

  /** `(3-2)+1` and `(8/4)/2`, the trees test.py:14-15 assume. */
  const SubtractionLeft := Node(Plus, Symbol('+'), [Node(Minus, Symbol('-'), [Leaf(Three), Leaf(Two)]), Leaf(One)])
  const DivisionLeft := Node(Div, Symbol('/'), [Node(Div, Symbol('/'), [Leaf(Eight), Leaf(Four)]), Leaf(Two)])

  lemma GroupingsEvaluate()
    ensures WellFormed(SubtractionRight) && Compute(SubtractionRight) == Success(0.0)
    ensures WellFormed(DivisionRight) && Compute(DivisionRight) == Success(4.0)
    ensures WellFormed(SubtractionLeft) && Compute(SubtractionLeft) == Success(2.0)
    ensures WellFormed(DivisionLeft) && Compute(DivisionLeft) == Success(1.0)
  {
    assert WellFormed(Leaf(Eight)) && WellFormed(Leaf(Four)) && WellFormed(Leaf(Three));
    assert WellFormed(Leaf(Two)) && WellFormed(Leaf(One));
    assert Compute(SubtractionRight.children[1]) == Success(3.0);
    assert Compute(DivisionRight.children[1]) == Success(2.0);
    assert Compute(SubtractionLeft.children[0]) == Success(1.0);
    assert Compute(DivisionLeft.children[0]) == Success(2.0);
  }

  /** `3-2+1` is read as `3-(2+1)`, which is 0 rather than the 2 test.py:14 expects. */
  lemma RightGroupingSubtraction()
    ensures Calculate("3-2+1") == Success(0.0)
  {
    var ds, ops := [Three, Two, One], [MinusTok, PlusTok];
    ThreeChain(Three, Two, One, MinusTok, PlusTok);
    assert AllKind(ds, Num, Num) && AllKind(ops, Plus, Minus);
    LexesTo("3-2+1", [Three, MinusTok, Two, PlusTok, One]);
    ChainCalculatesRight("3-2+1", ds, ops);
    GroupingsEvaluate();
  }

  /** `8/4/2` is read as `8/(4/2)`, which is 4 rather than the 1 test.py:15 expects. */
  lemma RightGroupingDivision()
    ensures Calculate("8/4/2") == Success(4.0)
  {
    var ds, ops := [Eight, Four, Two], [DivTok, DivTok];
    ThreeChain(Eight, Four, Two, DivTok, DivTok);
    assert AllKind(ds, Num, Num) && AllKind(ops, Mult, Div);
    LexesTo("8/4/2", [Eight, DivTok, Four, DivTok, Two]);
    ChainCalculatesRight("8/4/2", ds, ops);
    GroupingsEvaluate();
  }

  /** With the corrected parser `3-2+1` is read as `(3-2)+1`, which is 2. */
  lemma LeftGroupingSubtraction()
    ensures ParseStringL("3-2+1").Success? && WellFormed(ParseStringL("3-2+1").value)
    ensures Compute(ParseStringL("3-2+1").value) == Success(2.0)
  {
    var ds, ops := [Three, Two, One], [MinusTok, PlusTok];
    ThreeChain(Three, Two, One, MinusTok, PlusTok);
    assert AllKind(ds, Num, Num) && AllKind(ops, Plus, Minus);
    LexesTo("3-2+1", [Three, MinusTok, Two, PlusTok, One]);
    ChainParsesLeft("3-2+1", ds, ops);
    GroupingsEvaluate();
  }

  /** With the corrected parser `8/4/2` is read as `(8/4)/2`, which is 1. */
  lemma LeftGroupingDivision()
    ensures ParseStringL("8/4/2").Success? && WellFormed(ParseStringL("8/4/2").value)
    ensures Compute(ParseStringL("8/4/2").value) == Success(1.0)
  {
    var ds, ops := [Eight, Four, Two], [DivTok, DivTok];
    ThreeChain(Eight, Four, Two, DivTok, DivTok);
    assert AllKind(ds, Num, Num) && AllKind(ops, Mult, Div);
    LexesTo("8/4/2", [Eight, DivTok, Four, DivTok, Two]);
    ChainParsesLeft("8/4/2", ds, ops);
    GroupingsEvaluate();
  }

  // What graphviz.py prints for `1+2` when its counter starts fresh.

  /** The lines for `+(1,2)` numbered from 1: the root, then each leaf after its edge. */
  lemma OnePlusTwoLines()
    ensures Graph(LabelTree(Node(Plus, Symbol('+'), [Leaf(Token(Num, Number(1))), Leaf(Token(Num, Number(2)))]), 1))
         == [Header, Open, Declare(1, Symbol('+')), Connect(1, 2), Declare(2, Number(1)), Connect(1, 3), Declare(3, Number(2)), Close]
  {
    var a, b := Leaf(Token(Num, Number(1))), Leaf(Token(Num, Number(2)));
    var n := Node(Plus, Symbol('+'), [a, b]);
    assert [a, b][..1] == [a];
    assert Size(a) == 1 && SizeForest([a][..0]) == 0;
    assert LabelForest([a], 2) == [Labelled(2, Num, Number(1), [])];
    assert SizeForest([a]) == 1;
    assert LabelForest([a, b], 2) == [Labelled(2, Num, Number(1), []), Labelled(3, Num, Number(2), [])];
    var l := LabelTree(n, 1);
    var la, lb := Labelled(2, Num, Number(1), []), Labelled(3, Num, Number(2), []);
    assert l == Labelled(1, Plus, Symbol('+'), [la, lb]);
    assert [la, lb][..1] == [la] && [la][..0] == [];
    assert BodyLines(la) == [Declare(2, Number(1))] && BodyLines(lb) == [Declare(3, Number(2))];
    assert ChildLines(1, [la]) == [Connect(1, 2), Declare(2, Number(1))];
    assert BodyLines(l) == [Declare(1, Symbol('+')), Connect(1, 2), Declare(2, Number(1)), Connect(1, 3), Declare(3, Number(2))];
  }

  lemma RootText()
    ensures Text(Declare(1, Symbol('+'))) == "n1 [label=\"+\"] ;"
  {
  }

  lemma FirstLeafText()
    ensures Text(Declare(2, Number(1))) == "n2 [label=\"1\"] ;"
  {
  }

  lemma SecondLeafText()
    ensures Text(Declare(3, Number(2))) == "n3 [label=\"2\"] ;"
  {
  }

  lemma EdgeTexts()
    ensures Text(Connect(1, 2)) == "n1 -- n2 ;"
    ensures Text(Connect(1, 3)) == "n1 -- n3 ;"
  {
  }

  /** The characters of those lines. */
  lemma OnePlusTwoText()
    ensures Texts([Header, Open, Declare(1, Symbol('+')), Connect(1, 2), Declare(2, Number(1)), Connect(1, 3), Declare(3, Number(2)), Close])
         == ["graph \"\"", "{", "n1 [label=\"+\"] ;", "n1 -- n2 ;", "n2 [label=\"1\"] ;", "n1 -- n3 ;", "n3 [label=\"2\"] ;", "}"]
  {
    RootText();
    FirstLeafText();
    SecondLeafText();
    EdgeTexts();
  }
  /** Parsing `1+2`, labelling the tree from a fresh counter and printing it gives exactly these lines. */
  lemma OnePlusTwoGraph()
    ensures ParseString("1+2").Success?
    ensures Texts(Graph(LabelTree(ParseString("1+2").value, 1)))
         == ["graph \"\"", "{", "n1 [label=\"+\"] ;", "n1 -- n2 ;", "n2 [label=\"1\"] ;", "n1 -- n3 ;", "n3 [label=\"2\"] ;", "}"]
  {
    var e := Add(T(Dig(1)), E(T(Dig(2))));
    ParsesAs("1+2", e);
    assert AstE(e) == Node(Plus, Symbol('+'), [Leaf(Token(Num, Number(1))), Leaf(Token(Num, Number(2)))]);
    OnePlusTwoLines();
    OnePlusTwoText();
  }
}
