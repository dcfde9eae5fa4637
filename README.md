# Arithmetic expression parser, evaluator and Graphviz exporter in Dafny

This project models a small Python expression interpreter.
- **Lexer.** `lexical_analysis` turns a string of single digits, `+ - * /` and parentheses into tokens, ending with an end marker.
- **Parser.** A recursive-descent parser (`parse_e`, `parse_ea`, `parse_e2`, `parse_e2a`, `parse_e3`, `match`, `parse`) pops tokens off one shared list and builds a binary tree.
- **Evaluator.** `compute` evaluates that tree.
- **Exporter.** `label` numbers the tree's nodes from a process-wide counter, and `to_graphviz` prints the tree as an undirected Graphviz graph.

Modules, one concern each:
- `Wrappers` (`wrappers.dfy`) defines `Option` and `Result`.
- `Lexer` (`lexer.dfy`) has:
  - the token kinds and the token and tree datatypes;
  - the character table and `Lex`, which specifies the lexer;
  - `LexicalAnalysis`, the lexing loop, proved equal to `Lex`.
- `Parser` (`parser.dfy`) has two layers:
  - one function per parse routine (`Expr`, `ExprTail`, `Term`, `TermTail`, `Factor`, `Expect`), each giving the result and the unread tokens;
  - the class `TokenStream`, whose `tokens` field is the shared list. Its methods pop from the front and are proved to agree with those functions.
  - `Parse` lexes, parses and matches the end marker.
- `Grammar` (`grammar.dfy`) is an independent concrete-syntax datatype for the grammar. It records the token sequence each syntax tree spells and the tree it denotes.
- `ParserProperties` (`parser_props.dfy`) proves:
  - the parse functions are complete and sound with respect to `Grammar`;
  - their follow sets;
  - the shape of the trees they build, including in-order read-back;
  - how same-precedence chains nest.
- `Evaluator` (`compute.dfy`) is the operations table and `compute`, over exact reals.
- `Graphviz` (`graphviz.dfy`) is:
  - pre-order labelling and the printed lines, as functions;
  - the class `Exporter`, holding the counter and the lines printed so far. Its methods `Label`, `ToGraphviz` and `EmitNode` are proved against those functions.
- `LeftAssoc` (`left_assoc.dfy`) is the corrected, left-grouping parser of the finding below.
- `Tests` (`tests.dfy`) holds the scenarios of `test.py` as lemmas, plus error cases and one complete Graphviz output.

The parser follows the code, which groups same-precedence chains to the right: the right operand of `+`/`-` is a whole `parse_e` result, and the right operand of `*`/`/` a whole `parse_e2` result. So `3-2+1` is read as `3-(2+1)`. The test assertions at `test.py:14-15` expect these chains to group to the left. The model follows the code and records the discrepancy under Findings.

## Model

| member | source | states |
|---|---|---|
| Lexer.CharToken | parser.py:24-40 | Each of `+ - * / ( )` gets its own kind, with the character as value. A digit gets `T_NUM` with value `int(c)` in 0..9. Every other character has no token. |
| Lexer.LexChars | parser.py:32-41 | Succeeds iff every character has a token. Then it gives one token per character, in order. Otherwise it fails naming the first character without a token. |
| Lexer.Lex | parser.py:23-43 | On success the output has `len(s)+1` tokens. Token `i` is the token of character `i`, and the last is `T_END`. Every token is one the table can produce, and `T_END` occurs only last. Succeeds iff every character is valid; otherwise fails at the first invalid character. |
| Lexer.FailsAtFirstInvalid | parser.py:33-40 | If every character before position `i` lexes and the one at `i` does not, lexing raises on exactly that character. |
| Lexer.LexicalAnalysis | parser.py:23-43 | The lexing loop returns exactly `Lex(s)`: the same tokens, or the same error at the first invalid character. |
| Parser.Expect | parser.py:46-50 | `match` succeeds iff the front token has the expected kind. It then yields that token and the tokens after it. Otherwise it is a syntax error naming the front token's kind. |
| Parser.Expr | parser.py:53-54 | A successful `parse_e` consumes at least one token and leaves a suffix that still ends with `T_END`. |
| Parser.ExprTail | parser.py:57-65 | A successful `parse_ea` leaves a suffix of its input that still ends with `T_END`. |
| Parser.Term | parser.py:68-69 | A successful `parse_e2` consumes at least one token and leaves a suffix ending with `T_END`. |
| Parser.TermTail | parser.py:72-80 | A successful `parse_e2a` leaves a suffix of its input ending with `T_END`. |
| Parser.Factor | parser.py:83-89 | A successful `parse_e3` consumes at least one token and leaves a suffix ending with `T_END`. |
| Parser.TokenStream.Pop | parser.py:48 | `pop(0)` returns the front token and removes that token only. |
| Parser.TokenStream.Match | parser.py:46-50 | Pops and returns the front token iff its kind is the expected one. Otherwise it fails with that token's kind and the list is unchanged. |
| Parser.TokenStream.ParseE | parser.py:53-54 | The method returns the node `Expr` gives and leaves in `tokens` exactly the tokens `Expr` leaves, or it fails with `Expr`'s error. |
| Parser.TokenStream.ParseEA | parser.py:57-65 | Agrees with `ExprTail` on the node, the remaining tokens and the error. |
| Parser.TokenStream.ParseE2 | parser.py:68-69 | Agrees with `Term` on the node, the remaining tokens and the error. |
| Parser.TokenStream.ParseE2A | parser.py:72-80 | Agrees with `TermTail` on the node, the remaining tokens and the error. |
| Parser.TokenStream.ParseE3 | parser.py:83-89 | Agrees with `Factor` on the node, the remaining tokens and the error. |
| Parser.Parse | parser.py:96-100 | `parse` returns exactly `ParseString(s)`. That is lex, then `parse_e`, then `match(T_END)`, with the first error raised. |
| Grammar.AstWellFormedE | parser.py:16-20 | The tree any valid syntax tree denotes is well formed: operators have exactly two children, numbers none, and every node carries a lexer token. |
| Grammar.AstWellFormedT | parser.py:16-20 | The same, for the multiplicative level. |
| Grammar.AstWellFormedF | parser.py:16-20 | The same, for factors. |
| Grammar.InOrderE | parser.py:59-61 | Reading the denoted tree in order gives the spelled tokens without their parentheses. |
| Grammar.InOrderT | parser.py:74-76 | The same, for the multiplicative level. |
| Grammar.InOrderF | parser.py:83-89 | The same, for factors; parentheses leave no node. |
| ParserProperties.TailFollowSets | parser.py:57-80 | `parse_ea` returns its left operand unconsumed exactly at `)` or `T_END`. `parse_e2a` does so exactly at `+ - ) T_END`. Any other token that does not continue the chain is a syntax error naming it. |
| ParserProperties.RejectedAfterFactor | parser.py:72-80 | When the token after the first factor of the input can neither continue a product nor end a term, `parse` raises a syntax error naming that token, as for the second digit of `12`. |
| ParserProperties.CompleteE | parser.py:53-65 | Completeness: on the spelling of any valid expression followed by `)` or `T_END`, `parse_e` succeeds. It builds the denoted tree and leaves exactly the following tokens. |
| ParserProperties.CompleteT | parser.py:68-80 | Completeness of `parse_e2` for any valid term followed by a token that may follow a term. |
| ParserProperties.CompleteF | parser.py:83-89 | Completeness of `parse_e3` for any valid factor followed by a token that may follow a factor. |
| ParserProperties.SoundE | parser.py:53-54 | Soundness: whatever `parse_e` accepts is the spelling of a valid expression, followed by `)` or `T_END`. The tree it returns is that expression's tree. |
| ParserProperties.SoundExprTail | parser.py:57-65 | Soundness of `parse_ea`: the left operand's term and the consumed tokens together spell a valid expression whose tree is the result. |
| ParserProperties.SoundT | parser.py:68-69 | Soundness of `parse_e2`, with the follow token it stops at. |
| ParserProperties.SoundTermTail | parser.py:72-80 | Soundness of `parse_e2a`. |
| ParserProperties.SoundF | parser.py:83-89 | Soundness of `parse_e3`: a digit, or a parenthesised valid expression. |
| ParserProperties.ExprIff | parser.py:53-65 | `parse_e` returns tree `n` with unread tokens `rest` iff the consumed tokens spell a valid expression denoting `n` and `rest` starts with `)` or `T_END`. |
| ParserProperties.ExprReadsBack | parser.py:59-61 | Every tree `parse_e` builds is well formed. Reading it in order gives back the consumed tokens with the parentheses removed. |
| ParserProperties.ParseStringIff | parser.py:96-100 | `parse(s)` returns `n` iff `s` lexes to the spelling of a valid expression plus `T_END`, and `n` is that expression's tree. |
| ParserProperties.ParsedTreeShape | parser.py:96-100 | A tree `parse` returns is well formed. Read in order, it gives back the input's tokens without parentheses. |
| ParserProperties.ChainsNestRight | parser.py:57-62 | A chain of digits joined by additive operators only, or by multiplicative ones only, parses to the right-nested tree `d0 op0 (d1 op1 (...))`. |
| Evaluator.Operation | compute.py:6-11 | Only `truediv` by zero fails. Division does not truncate: the quotient times the divisor is the dividend. |
| Evaluator.Compute | compute.py:14-20 | A leaf gives its value. An operator node evaluates `children[0]`, then `children[1]`, then applies its operation. A failure implies the tree contains a division. |
| Evaluator.DivisionFreeIsInteger | compute.py:7-9 | A tree without `/` evaluates without failing to the integer that integer arithmetic gives. |
| Evaluator.FailsIffDividesByZero | compute.py:10 | `compute` fails exactly when some division's operands both evaluate and the right one evaluates to 0. |
| Graphviz.LabelIds | graphviz.py:7-13 | Labelling from counter value `c` gives a tree of `k` nodes exactly the ids `c .. c+k-1`, in pre-order. So the ids are distinct and contiguous. |
| Graphviz.LabelKeepsTree | graphviz.py:7-13 | Labelling changes nothing but the ids. |
| Graphviz.LabelForestAt | graphviz.py:12-13 | The `k`-th child is labelled from the counter value right after the subtrees to its left. |
| Graphviz.LabelPreOrdered | graphviz.py:9-13 | Every node's id is below all ids in its subtree. Every id in a child's subtree is below every id in its right siblings' subtrees. |
| Graphviz.IntToString | graphviz.py:26-29 | Python's `str` of an id: a non-negative id prints as digits without leading zeros that read back to it, a negative one as `-` followed by such digits for its magnitude. |
| Graphviz.ValueText | graphviz.py:26 | `format` of a node value: an operator prints as its character, a number as digits that read back to it, and no value as `None`. The text holds a double quote only when the value is that character. |
| Graphviz.Text | graphviz.py:16-29 | The characters `print` writes for each line, without the trailing newline. Exactly the node and edge lines start with `n` and end with ` ;`. |
| Graphviz.DeclareTextReadsBack | graphviz.py:26 | Two declaration lines with non-negative ids are equal only when their ids are equal and their labels print alike, so distinct nodes get distinct lines. |
| Graphviz.ConnectTextReadsBack | graphviz.py:29 | Two edge lines with non-negative ids are equal only when they join the same parent and child. |
| Graphviz.NatToStringReadsBack | graphviz.py:26 | The decimal notation printed for an id reads back as that id, so distinct ids print as distinct names. |
| Graphviz.BodyLineCount | graphviz.py:25-30 | `_to_graphviz` on an `n`-node tree gives `2n-1` lines. |
| Graphviz.DeclaresInPreOrder | graphviz.py:26-30 | The declaration lines name every node exactly once, in pre-order. |
| Graphviz.BodyEdgesThenChild | graphviz.py:28-30 | Every edge line is followed at once by the declaration of the child it leads to. |
| Graphviz.ParsedTreeLabels | graphviz.py:26 | For a parsed tree, every declaration's label is one character: the operator or the digit. |
| Graphviz.Exporter.constructor | graphviz.py:4 | The counter starts at 1 and nothing has been printed. |
| Graphviz.Exporter.Label | graphviz.py:7-13 | Returns the tree numbered in pre-order from the old counter value and raises the counter by the number of nodes. Nothing is printed. |
| Graphviz.Exporter.Emit | graphviz.py:26 | One `print` appends one line to the output. |
| Graphviz.Exporter.ToGraphviz | graphviz.py:16-22 | Prints `graph ""`, `{`, the tree's body lines and `}`, in that order. The counter is untouched. |
| Graphviz.Exporter.EmitNode | graphviz.py:25-30 | Prints the node's declaration, then for each child its edge line followed by the child's own lines. |
| Graphviz.LabelTwice | graphviz.py:4-10 | The counter is never reset: a second tree labelled in the same process continues after the first. Every id of the second tree exceeds every id of the first. |
| LeftAssoc.ExprL | parser.py:53-54 | The corrected `parse_e` consumes at least one token and leaves a suffix ending with `T_END`. |
| LeftAssoc.ExprLTail | parser.py:57-65 | The corrected `parse_ea` joins one term to the tree built so far and continues the chain. It leaves a suffix ending with `T_END`. |
| LeftAssoc.TermL | parser.py:68-69 | The corrected `parse_e2` consumes at least one token and leaves a suffix ending with `T_END`. |
| LeftAssoc.TermLTail | parser.py:72-80 | The corrected `parse_e2a` joins one factor to the tree built so far and continues the chain. It leaves a suffix ending with `T_END`. |
| LeftAssoc.FactorL | parser.py:83-89 | `parse_e3` over the corrected parser, with the same suffix guarantee. |
| LeftAssoc.ChainsNestLeft | parser.py:57-62 | With the correction, a same-precedence chain of digits parses to the left-nested tree `((d0 op0 d1) op1 d2) ...`. |
| Tests.Calculate | test.py:5-9 | `compute(parse(s))`. It fails with the parser's own error iff parsing fails. An arithmetic failure implies the tree contains a division. |
| Tests.OnePlusOne | test.py:12 | `1+1` evaluates to 2. |
| Tests.OneMinusOne | test.py:13 | `1-1` evaluates to 0. |
| Tests.OneTimesTwo | test.py:16 | `1*2` evaluates to 2. |
| Tests.ProductOfSums | test.py:17 | `(1+7)*(9+2)` evaluates to 88. |
| Tests.SumOverFour | test.py:18 | `(2+7)/4` evaluates to 2.25. |
| Tests.SevenOverFour | test.py:19 | `7/4` evaluates to 1.75. |
| Tests.ProductThenSum | test.py:20 | `2*3+4` evaluates to 10. |
| Tests.ProductOfParenthesisedSum | test.py:21 | `2*(3+4)` evaluates to 14. |
| Tests.SumThenProduct | test.py:22 | `2+3*4` evaluates to 14. |
| Tests.SumOfParenthesisedProduct | test.py:23 | `2+(3*4)` evaluates to 14. |
| Tests.DifferenceOfNested | test.py:24 | `2-(3*4+1)` evaluates to -11. |
| Tests.ProductOfNested | test.py:25 | `2*(3*4+1)` evaluates to 26. |
| Tests.QuotientOfNested | test.py:26 | `8/((1+3)*2)` evaluates to 1. |
| Tests.UnbalancedParenthesisRaises | test.py:28-33 | `1+1)` raises: `parse_e` stops before `)`, and the final `match(T_END)` fails on it. |
| Tests.EmptyInputRaises | parser.py:83-86 | The empty string lexes to `T_END` alone, and `parse_e3` fails to match `(` there. |
| Tests.AdjacentDigitsRaise | parser.py:78-80 | In `12` the second digit is neither an operator nor a follow token, so `parse_e2a` raises on `T_NUM`. |
| Tests.SpaceIsInvalid | parser.py:39-40 | `1 + 1` fails lexing at the space. |
| Tests.DivisionByZeroRaises | compute.py:10 | `1/(1-1)` parses but evaluation raises the division-by-zero error. |
| Tests.RightGroupingSubtraction | test.py:14 | As written, `3-2+1` evaluates to 0, not the 2 the test expects. |
| Tests.RightGroupingDivision | test.py:15 | As written, `8/4/2` evaluates to 4, not the 1 the test expects. |
| Tests.LeftGroupingSubtraction | test.py:14 | With the corrected parser, `3-2+1` evaluates to 2. |
| Tests.LeftGroupingDivision | test.py:15 | With the corrected parser, `8/4/2` evaluates to 1. |
| Tests.OnePlusTwoGraph | graphviz.py:16-30 | For `1+2` with a fresh counter, the printed lines are exactly `graph ""`, `{`, `n1 [label="+"] ;`, `n1 -- n2 ;`, `n2 [label="1"] ;`, `n1 -- n3 ;`, `n3 [label="2"] ;`, `}`. |

## Left out

- The `__main__` blocks (compute.py:23-26, graphviz.py:33-37) are command-line and stdout plumbing. The line `test_computation` prints is left out for the same reason.
- Python float arithmetic is not modelled. Values are exact reals. This agrees with every value in test.py but not with float rounding in general. Nor does it agree with float overflow: a product of a few hundred nines divided by 1 raises `OverflowError` in `truediv`. So Evaluator.FailsIffDividesByZero characterises failure of the exact-real evaluation only.
- Python's recursion limit is not modelled. Deep or long inputs raise `RecursionError` in the source: about 500 chained `+`, or about 330 nested parentheses. The model has no stack bound, so on such inputs ParserProperties.ParseStringIff says `parse` succeeds, and `compute`, `label` and `_to_graphviz` also finish.
- Exception messages are reduced to their cause: `InvalidToken(c)` for the lexer, `SyntaxError(kind)` for the parser, `ZeroDivisionError` for the evaluator.
- `\d` is restricted to ASCII `0`-`9`. Python's Unicode-aware `\d` also accepts other decimal digits.
- Object identity is not modelled. The source reuses token objects as tree nodes and appends children to them in place. Here tokens and tree nodes are separate immutable values.
- Graphviz.Exporter.Label: the source stores `id` in each node object; the model returns a labelled copy of the tree.
- Parser.Expr, Parser.ExprTail, Parser.Term, Parser.TermTail, Parser.Factor and the `TokenStream` parse methods require a token list that ends with `T_END`. The source only calls them on the lexer's output, so its `IndexError` on an empty list cannot occur.
- Parser.TokenStream.ParseE and the other parse methods say nothing about `tokens` after a failure. In the source the exception abandons the list.
- The process-wide `node_counter` global is the `nodeCounter` field of one `Exporter` object.
- `print` appends a `Line` value to the `output` field. `Text` gives the exact characters of each line.

## Findings

| source | as written | input that shows it | evidently intended | confidence | as-written member | corrected member |
|---|---|---|---|---|---|---|
| parser.py:57-62 | `parse_ea` makes the whole rest of the additive chain the right operand, so `+`/`-` group to the right | `3-2+1` parses as `3-(2+1)` and evaluates to 0 | `(3-2)+1` = 2, as test.py:14 asserts | not executed | Tests.RightGroupingSubtraction | Tests.LeftGroupingSubtraction |
| parser.py:72-77 | `parse_e2a` makes the whole rest of the multiplicative chain the right operand, so `*`/`/` group to the right | `8/4/2` parses as `8/(4/2)` and evaluates to 4 | `(8/4)/2` = 1, as test.py:15 asserts | not executed | Tests.RightGroupingDivision | Tests.LeftGroupingDivision |

`LeftAssoc` is the corrected parser. Its tail functions join each new operand to the tree built so far. `LeftAssoc.ChainsNestLeft` proves that every same-precedence chain then nests to the left. `ParserProperties.ChainsNestRight` proves that the parser as written nests such chains to the right. The rest of the model keeps the parser as written, because that is what the repository runs.
