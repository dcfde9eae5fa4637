/** Tokens, tree nodes and the lexical analysis of parser.py. */
module Lexer {
  import opened Wrappers

  /** The token kinds of parser.py. */
  datatype TokenType = Num | Plus | Minus | Mult | Div | LPar | RPar | End

  /** A node's `value`: unset, the source character of an operator or parenthesis, or a digit's integer. */
  datatype Value = NoValue | Symbol(c: char) | Number(n: int)

  /** What the lexer produces for one character, or for the end of the input. */
  datatype Token = Token(kind: TokenType, value: Value)

  /** A tree node: the kind and value of the token it was made from, and its children in order. */
  datatype Node = Node(kind: TokenType, value: Value, children: seq<Node>)

  /** Why `parse` gives up: a character the lexer does not know, or a token the grammar does not expect. */
  datatype ParseError = InvalidToken(c: char) | SyntaxError(found: TokenType)

  const EndToken := Token(End, NoValue)

  /** The lexer's table of one-character operators and parentheses. */
  function Mapping(c: char): Option<TokenType> {
    match c
    case '+' => Some(Plus)
    case '-' => Some(Minus)
    case '*' => Some(Mult)
    case '/' => Some(Div)
    case '(' => Some(LPar)
    case ')' => Some(RPar)
    case _ => None
  }

  /** The character an operator or parenthesis kind is written with: the inverse of `Mapping`. */
  function SymbolOf(kind: TokenType): char
    requires kind != Num && kind != End
  {
    match kind
    case Plus => '+'
    case Minus => '-'
    case Mult => '*'
    case Div => '/'
    case LPar => '('
    case RPar => ')'
  }

  predicate IsDigit(c: char) {
    '0' <= c <= '9'
  }

  /** A token whose value agrees with its kind: a digit 0..9 for a number, the written symbol for an
      operator or parenthesis, nothing for the end marker. */
  predicate ValidToken(t: Token) {
    match t.kind
    case Num => t.value.Number? && 0 <= t.value.n <= 9
    case End => t.value == NoValue
    case _ => t.value == Symbol(SymbolOf(t.kind))
  }

  /** The token one input character stands for, if it stands for one. */
  function CharToken(c: char): (r: Option<Token>)
    ensures r.Some? <==> c in "+-*/()" || IsDigit(c)
    ensures r.Some? ==> ValidToken(r.value) && r.value.kind != End
    ensures r.Some? && !IsDigit(c) ==> r.value.value == Symbol(c)
    ensures IsDigit(c) ==> r == Some(Token(Num, Number(c as int - '0' as int)))
  {
    match Mapping(c)
    case Some(kind) => Some(Token(kind, Symbol(c)))
    case None => if IsDigit(c) then Some(Token(Num, Number(c as int - '0' as int))) else None
  }

  /** `i` is the position of the first character of `s` that has no token. */
  predicate FirstInvalid(s: string, i: int) {
    0 <= i < |s| && CharToken(s[i]).None? && forall j :: 0 <= j < i ==> CharToken(s[j]).Some?
  }

  /** The tokens of the characters of `s`, without the end marker. */
  function LexChars(s: string): (r: Result<seq<Token>, ParseError>)
    ensures r.Success? <==> forall i :: 0 <= i < |s| ==> CharToken(s[i]).Some?
    ensures r.Success? ==> |r.value| == |s| && forall i :: 0 <= i < |s| ==> r.value[i] == CharToken(s[i]).value
    ensures r.Failure? ==> exists i :: FirstInvalid(s, i) && r.error == InvalidToken(s[i])
  {
    if s == [] then Success([])
    else
      var last := |s| - 1;
      assert forall i :: 0 <= i < last ==> s[..last][i] == s[i];
      match LexChars(s[..last])
      case Failure(e) => Failure(e)
      case Success(init) =>
        match CharToken(s[last])
        case None => assert FirstInvalid(s, last); Failure(InvalidToken(s[last]))
        case Some(t) => Success(init + [t])
  }

  /** What `lexical_analysis` returns: one token per character, then the end marker; or the first
      character it cannot read. */
  function Lex(s: string): (r: Result<seq<Token>, ParseError>)
    ensures r.Success? <==> forall i :: 0 <= i < |s| ==> CharToken(s[i]).Some?
    ensures r.Success? ==> |r.value| == |s| + 1 && r.value[|s|] == EndToken
    ensures r.Success? ==> forall i :: 0 <= i < |s| ==> r.value[i] == CharToken(s[i]).value
    ensures r.Success? ==> forall i :: 0 <= i < |r.value| ==> ValidToken(r.value[i]) && (r.value[i].kind == End <==> i == |s|)
    ensures r.Failure? ==> exists i :: FirstInvalid(s, i) && r.error == InvalidToken(s[i])
  {
    var tokens :- LexChars(s);
    Success(tokens + [EndToken])
  }

  /** The tokens appended up to character `i` are lexed, and character `i` has no token: lexing fails there. */
  lemma FailsAtFirstInvalid(s: string, i: nat)
    requires i < |s| && LexChars(s[..i]).Success? && CharToken(s[i]).None?
    ensures Lex(s) == Failure(InvalidToken(s[i]))
  {
    forall j | 0 <= j < i
      ensures CharToken(s[j]).Some?
    {
      assert s[..i][j] == s[j];
    }
    assert FirstInvalid(s, i);
    assert Lex(s).Failure?;
    var k :| FirstInvalid(s, k) && Lex(s).error == InvalidToken(s[k]);
    if k < i {
      assert CharToken(s[k]).Some?;
    }
  }

  /** `lexical_analysis`: reads the input character by character, appending one token each, then the end marker. */
  method LexicalAnalysis(s: string) returns (r: Result<seq<Token>, ParseError>)
    ensures r == Lex(s)
  {
    var tokens: seq<Token> := [];
    for i := 0 to |s|
      invariant LexChars(s[..i]) == Success(tokens)
    {
      var c := s[i];
      var token: Token;
      if Mapping(c).Some? {
        token := Token(Mapping(c).value, Symbol(c));
      } else if IsDigit(c) {
        token := Token(Num, Number(c as int - '0' as int));
      } else {
        FailsAtFirstInvalid(s, i);
        return Failure(InvalidToken(c));
      }
      assert s[..i + 1][..i] == s[..i];
      tokens := tokens + [token];
    }
    assert s[..|s|] == s;
    tokens := tokens + [EndToken];
    return Success(tokens);
  }
}
