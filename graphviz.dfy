/** The Graphviz exporter of graphviz.py: `label` numbers the nodes of a tree in pre-order from a
    counter that lives as long as the process, and `to_graphviz` writes the numbered tree as an
    undirected graph, one declaration line per node and one edge line per parent-child pair. */
module Graphviz {
  import opened Lexer
  import opened Parser

  /** A tree node after labelling: its id next to its kind, value and children. */
  datatype Labelled = Labelled(id: int, kind: TokenType, value: Value, children: seq<Labelled>)

  /** Number of nodes in a tree, and in a sequence of trees. */
  function Size(n: Node): nat {
    1 + SizeForest(n.children)
  }

  function SizeForest(ns: seq<Node>): nat {
    if ns == [] then 0 else SizeForest(ns[..|ns| - 1]) + Size(ns[|ns| - 1])
  }

  /** The tree numbered in pre-order from `start`: the root gets `start`, then each child subtree in
      turn gets the ids following those of its left siblings. */
  function LabelTree(n: Node, start: int): Labelled {
    Labelled(start, n.kind, n.value, LabelForest(n.children, start + 1))
  }

  function LabelForest(ns: seq<Node>, start: int): (r: seq<Labelled>)
    ensures |r| == |ns|
  {
    if ns == [] then []
    else
      var init := ns[..|ns| - 1];
      LabelForest(init, start) + [LabelTree(ns[|ns| - 1], start + SizeForest(init))]
  }

  /** The ids of a labelled tree in pre-order. */
  function Ids(l: Labelled): seq<int> {
    [l.id] + IdsForest(l.children)
  }

  function IdsForest(ls: seq<Labelled>): seq<int> {
    if ls == [] then [] else IdsForest(ls[..|ls| - 1]) + Ids(ls[|ls| - 1])
  }

  /** The tree with its ids forgotten. */
  function Unlabel(l: Labelled): Node {
    Node(l.kind, l.value, UnlabelForest(l.children))
  }

  function UnlabelForest(ls: seq<Labelled>): seq<Node> {
    if ls == [] then [] else UnlabelForest(ls[..|ls| - 1]) + [Unlabel(ls[|ls| - 1])]
  }

  /** The `count` consecutive integers from `lo`. */
  function Range(lo: int, count: nat): (r: seq<int>)
    ensures |r| == count && forall i :: 0 <= i < count ==> r[i] == lo + i
  {
    if count == 0 then [] else Range(lo, count - 1) + [lo + count - 1]
  }

  lemma RangeAppend(lo: int, a: nat, b: nat)
    ensures Range(lo, a) + Range(lo + a, b) == Range(lo, a + b)
  {
  }

  lemma IdsForestSnoc(ls: seq<Labelled>, l: Labelled)
    ensures IdsForest(ls + [l]) == IdsForest(ls) + Ids(l)
  {
    assert (ls + [l])[..|ls|] == ls;
  }

  lemma UnlabelForestSnoc(ls: seq<Labelled>, l: Labelled)
    ensures UnlabelForest(ls + [l]) == UnlabelForest(ls) + [Unlabel(l)]
  {
    assert (ls + [l])[..|ls|] == ls;
  }

  /** Labelling from `start` uses exactly the ids `start`, `start + 1`, ..., in pre-order: the
      ids of one tree are distinct and contiguous, and there are as many as there are nodes. */
  lemma {:induction false} LabelIds(n: Node, start: int)
    ensures Ids(LabelTree(n, start)) == Range(start, Size(n))
    decreases n, 1
  {
    LabelForestIds(n.children, start + 1);
    RangeAppend(start, 1, SizeForest(n.children));
  }

  lemma {:induction false} LabelForestIds(ns: seq<Node>, start: int)
    ensures IdsForest(LabelForest(ns, start)) == Range(start, SizeForest(ns))
    decreases ns, 0
  {
    if ns != [] {
      var init, last := ns[..|ns| - 1], ns[|ns| - 1];
      var front, back := LabelForest(init, start), LabelTree(last, start + SizeForest(init));
      assert LabelForest(ns, start) == front + [back];
      assert SizeForest(ns) == SizeForest(init) + Size(last);
      IdsForestSnoc(front, back);
      LabelForestIds(init, start);
      LabelIds(last, start + SizeForest(init));
      RangeAppend(start, SizeForest(init), Size(last));
    }
  }

  /** Labelling changes nothing but the ids. */
  lemma {:induction false} LabelKeepsTree(n: Node, start: int)
    ensures Unlabel(LabelTree(n, start)) == n
    decreases n, 1
  {
    LabelForestKeepsTrees(n.children, start + 1);
  }

  lemma {:induction false} LabelForestKeepsTrees(ns: seq<Node>, start: int)
    ensures UnlabelForest(LabelForest(ns, start)) == ns
    decreases ns, 0
  {
    if ns != [] {
      var init, last := ns[..|ns| - 1], ns[|ns| - 1];
      UnlabelForestSnoc(LabelForest(init, start), LabelTree(last, start + SizeForest(init)));
      LabelForestKeepsTrees(init, start);
      LabelKeepsTree(last, start + SizeForest(init));
      assert ns == init + [last];
    }
  }

  /** The ids are numbered in pre-order: every id below a node is larger than the node's own id,
      and every id in a child subtree is smaller than every id in the subtrees to its right. */
  predicate PreOrdered(l: Labelled) {
    (forall x :: x in IdsForest(l.children) ==> l.id < x) &&
    (forall i, j, x, y :: 0 <= i < j < |l.children| && x in Ids(l.children[i]) && y in Ids(l.children[j]) ==> x < y) &&
    (forall i :: 0 <= i < |l.children| ==> PreOrdered(l.children[i]))
  }

  /** The `k`-th labelled child starts numbering right after the subtrees to its left. */
  lemma {:induction false} LabelForestAt(ns: seq<Node>, start: int, k: int)
    requires 0 <= k < |ns|
    ensures LabelForest(ns, start)[k] == LabelTree(ns[k], start + SizeForest(ns[..k]))
    decreases ns
  {
    var init := ns[..|ns| - 1];
    if k < |ns| - 1 {
      LabelForestAt(init, start, k);
      assert init[..k] == ns[..k];
    } else {
      assert init == ns[..k];
    }
  }

  /** Splitting a forest's size at a child: the subtrees left of `j` take at least the room of
      those left of `i`, plus the whole `i`-th subtree. */
  lemma {:induction false} SizeForestPrefix(ns: seq<Node>, i: int, j: int)
    requires 0 <= i < j <= |ns|
    ensures SizeForest(ns[..i]) + Size(ns[i]) <= SizeForest(ns[..j])
    decreases j
  {
    var pre := ns[..j];
    assert pre[..j - 1] == ns[..j - 1];
    if i < j - 1 {
      SizeForestPrefix(ns, i, j - 1);
    }
  }

  lemma InRange(x: int, lo: int, count: nat)
    requires x in Range(lo, count)
    ensures lo <= x < lo + count
  {
  }

  /** Every id below the root of a labelled tree is larger than the root's id. */
  lemma RootBeforeDescendants(n: Node, start: int)
    ensures forall x :: x in IdsForest(LabelTree(n, start).children) ==> start < x
  {
    LabelForestIds(n.children, start + 1);
    forall x | x in IdsForest(LabelTree(n, start).children)
      ensures start < x
    {
      InRange(x, start + 1, SizeForest(n.children));
    }
  }

  /** Ids in a labelled subtree are smaller than those in the subtrees to its right. */
  lemma LeftBeforeRight(ns: seq<Node>, start: int, i: int, j: int, x: int, y: int)
    requires 0 <= i < j < |ns|
    requires x in Ids(LabelForest(ns, start)[i]) && y in Ids(LabelForest(ns, start)[j])
    ensures x < y
  {
    LabelForestAt(ns, start, i);
    LabelForestAt(ns, start, j);
    LabelIds(ns[i], start + SizeForest(ns[..i]));
    LabelIds(ns[j], start + SizeForest(ns[..j]));
    InRange(x, start + SizeForest(ns[..i]), Size(ns[i]));
    InRange(y, start + SizeForest(ns[..j]), Size(ns[j]));
    SizeForestPrefix(ns, i, j);
  }

  /** Every tree labelled by `LabelTree` is numbered in pre-order. */
  lemma {:induction false} LabelPreOrdered(n: Node, start: int)
    ensures PreOrdered(LabelTree(n, start))
    decreases n
  {
    var l := LabelTree(n, start);
    var ns := n.children;
    RootBeforeDescendants(n, start);
    forall i, j, x, y | 0 <= i < j < |l.children| && x in Ids(l.children[i]) && y in Ids(l.children[j])
      ensures x < y
    {
      LeftBeforeRight(ns, start + 1, i, j, x, y);
    }
    forall i | 0 <= i < |l.children|
      ensures PreOrdered(l.children[i])
    {
      LabelForestAt(ns, start + 1, i);
      LabelPreOrdered(ns[i], start + 1 + SizeForest(ns[..i]));
    }
  }

  // Output lines.

  /** One printed line: the graph header, an opening or closing brace, a node declaration, or an
      edge from a parent to a child. */
  datatype Line = Header | Open | Close | Declare(id: int, value: Value) | Connect(parent: int, child: int)

  function DigitChar(d: int): (c: char)
    requires 0 <= d < 10
    ensures IsDigit(c) && c as int - '0' as int == d
  {
    ('0' as int + d) as char
  }

  /** Decimal notation of a natural number, without leading zeros. */
  function NatToString(n: nat): (r: string)
    ensures 1 <= |r| && (|r| > 1 ==> r[0] != '0')
    ensures forall i :: 0 <= i < |r| ==> IsDigit(r[i])
  {
    if n < 10 then [DigitChar(n)] else NatToString(n / 10) + [DigitChar(n % 10)]
  }

  /** The number a string of decimal digits denotes. */
  function DecimalValue(s: string): nat
    requires forall i :: 0 <= i < |s| ==> IsDigit(s[i])
  {
    if s == [] then 0 else assert IsDigit(s[|s| - 1]); 10 * DecimalValue(s[..|s| - 1]) + (s[|s| - 1] as int - '0' as int)
  }

  /** Reading a number's notation back gives the number, so distinct ids print differently. */
  lemma {:induction false} NatToStringReadsBack(n: nat)
    ensures DecimalValue(NatToString(n)) == n
  {
    if n >= 10 {
      var r := NatToString(n);
      assert r[..|r| - 1] == NatToString(n / 10);
      NatToStringReadsBack(n / 10);
    }
  }

  /** Whether every character of `s` is a decimal digit. */
  predicate AllDigits(s: string) {
    forall i :: 0 <= i < |s| ==> IsDigit(s[i])
  }

  /** Python's `str` of an integer: its decimal notation, after a minus sign when it is negative. */
  function IntToString(i: int): (r: string)
    ensures i >= 0 ==> AllDigits(r) && DecimalValue(r) == i && (|r| > 1 ==> r[0] != '0')
    ensures i < 0 ==> 2 <= |r| && r[0] == '-' && AllDigits(r[1..]) && DecimalValue(r[1..]) == -i
    ensures i < 0 ==> |r| > 2 ==> r[1] != '0'
  {
    if i < 0 then
      var d := NatToString(-i);
      NatToStringReadsBack(-i);
      assert ("-" + d)[1..] == d;
      "-" + d
    else
      NatToStringReadsBack(i);
      NatToString(i)
  }

  /** How `format` writes a node value: the character, the number, or `None` for no value. The
      result holds a double quote only when the value is that character, so a label written
      between double quotes ends where the value ends. */
  function ValueText(v: Value): (r: string)
    ensures 1 <= |r|
    ensures v.Symbol? ==> r == [v.c]
    ensures v.Number? && v.n >= 0 ==> AllDigits(r) && DecimalValue(r) == v.n
    ensures v.NoValue? ==> r == "None"
    ensures '"' in r ==> v == Symbol('"')
  {
    match v
    case NoValue => "None"
    case Symbol(c) => [c]
    case Number(n) => IntToString(n)
  }

  /** The characters of a line: `graph ""`, `{`, `}`, `n<id> [label="<value>"] ;` or
      `n<parent> -- n<child> ;`. Exactly the node and edge lines are statements ending in ` ;`. */
  function Text(line: Line): (r: string)
    ensures 1 <= |r|
    ensures (line.Declare? || line.Connect?) <==> (3 <= |r| && r[0] == 'n' && r[|r| - 2..] == " ;")
  {
    match line
    case Header => "graph \"\""
    case Open => "{"
    case Close => "}"
    case Declare(id, v) => "n" + IntToString(id) + " [label=\"" + ValueText(v) + "\"] ;"
    case Connect(p, c) => "n" + IntToString(p) + " -- n" + IntToString(c) + " ;"
  }

  /** A digit string followed by a non-digit differs from any longer digit string with a tail. */
  lemma ShorterDigitsDiffer(a: string, x: string, b: string, y: string)
    requires AllDigits(b) && 1 <= |x| && !IsDigit(x[0]) && |a| < |b|
    ensures a + x != b + y
  {
    assert (a + x)[|a|] == x[0] && (b + y)[|a|] == b[|a|];
  }

  /** A digit string followed by a non-digit splits in one way only. */
  lemma DigitsSplit(a: string, x: string, b: string, y: string)
    requires AllDigits(a) && AllDigits(b)
    requires 1 <= |x| && 1 <= |y| && !IsDigit(x[0]) && !IsDigit(y[0])
    requires a + x == b + y
    ensures a == b && x == y
  {
    if |a| < |b| {
      ShorterDigitsDiffer(a, x, b, y);
    } else if |b| < |a| {
      ShorterDigitsDiffer(b, y, a, x);
    }
    assert a == (a + x)[..|a|] && b == (b + y)[..|b|];
  }

  /** Regrouping a five-part concatenation around its first part. */
  lemma Regroup(n: string, a: string, l: string, v: string, r: string)
    ensures (((n + a) + l) + v) + r == n + (a + ((l + v) + r))
  {
  }

  /** Equal strings with a common prefix have equal remainders. */
  lemma DropPrefix(n: string, s: string, t: string)
    requires n + s == n + t
    ensures s == t
  {
    assert s == (n + s)[|n|..] && t == (n + t)[|n|..];
  }

  /** A line made of a prefix, a digit string, a separator starting with a non-digit, a middle
      part and a suffix gives back its digit string and its middle part. */
  lemma FramedSplit(n: string, a: string, l: string, v: string, r: string, b: string, w: string)
    requires AllDigits(a) && AllDigits(b) && 1 <= |l| && !IsDigit(l[0])
    requires (((n + a) + l) + v) + r == (((n + b) + l) + w) + r
    ensures a == b && v == w
  {
    Regroup(n, a, l, v, r);
    Regroup(n, b, l, w, r);
    DropPrefix(n, a + ((l + v) + r), b + ((l + w) + r));
    DigitsSplit(a, (l + v) + r, b, (l + w) + r);
    assert (l + v) + r == l + (v + r) && (l + w) + r == l + (w + r);
    DropPrefix(l, v + r, w + r);
    assert v == (v + r)[..|v|] && w == (w + r)[..|w|];
  }

  /** Distinct node ids print as distinct declaration lines, and the line shows the value's text. */
  lemma {:induction false} DeclareTextReadsBack(i: nat, v: Value, j: nat, w: Value)
    requires Text(Declare(i, v)) == Text(Declare(j, w))
    ensures i == j && ValueText(v) == ValueText(w)
  {
    FramedSplit("n", IntToString(i), " [label=\"", ValueText(v), "\"] ;", IntToString(j), ValueText(w));
  }

  /** Distinct edges print as distinct edge lines: the line gives back its parent and child ids. */
  lemma {:induction false} ConnectTextReadsBack(p: nat, c: nat, q: nat, d: nat)
    requires Text(Connect(p, c)) == Text(Connect(q, d))
    ensures p == q && c == d
  {
    FramedSplit("n", IntToString(p), " -- n", IntToString(c), " ;", IntToString(q), IntToString(d));
    DigitsSplit(IntToString(c), " ;", IntToString(d), " ;");
  }

  /** The characters of each line, in order. */
  function Texts(lines: seq<Line>): (r: seq<string>)
    ensures |r| == |lines| && forall i :: 0 <= i < |lines| ==> r[i] == Text(lines[i])
  {
    if lines == [] then [] else Texts(lines[..|lines| - 1]) + [Text(lines[|lines| - 1])]
  }

  /** The body lines of a labelled tree: the node's declaration, then for each child an edge line
      followed at once by the child's own body lines. */
  function BodyLines(l: Labelled): seq<Line>
    decreases l, 1
  {
    [Declare(l.id, l.value)] + ChildLines(l.id, l.children)
  }

  function ChildLines(parent: int, ls: seq<Labelled>): seq<Line>
    decreases ls, 0
  {
    if ls == [] then []
    else ChildLines(parent, ls[..|ls| - 1]) + ([Connect(parent, ls[|ls| - 1].id)] + BodyLines(ls[|ls| - 1]))
  }

  /** An n-node tree gives 2n-1 body lines: one declaration per node and one edge per non-root node. */
  lemma {:induction false} BodyLineCount(l: Labelled)
    ensures |BodyLines(l)| == 2 * |Ids(l)| - 1
    decreases l, 1
  {
    ChildLineCount(l.id, l.children);
  }

  lemma {:induction false} ChildLineCount(parent: int, ls: seq<Labelled>)
    ensures |ChildLines(parent, ls)| == 2 * |IdsForest(ls)|
    decreases ls, 0
  {
    if ls != [] {
      ChildLineCount(parent, ls[..|ls| - 1]);
      BodyLineCount(ls[|ls| - 1]);
    }
  }

  /** The ids declared by a sequence of lines, in order. */
  function Declared(lines: seq<Line>): seq<int> {
    if lines == [] then []
    else
      var last := lines[|lines| - 1];
      Declared(lines[..|lines| - 1]) + (if last.Declare? then [last.id] else [])
  }

  lemma {:induction false} DeclaredAppend(a: seq<Line>, b: seq<Line>)
    ensures Declared(a + b) == Declared(a) + Declared(b)
    decreases |b|
  {
    if b == [] {
      assert a + b == a;
    } else {
      assert (a + b)[..|a + b| - 1] == a + b[..|b| - 1];
      DeclaredAppend(a, b[..|b| - 1]);
    }
  }

  /** The declarations name every node once, in pre-order. */
  lemma {:induction false} DeclaresInPreOrder(l: Labelled)
    ensures Declared(BodyLines(l)) == Ids(l)
    decreases l, 1
  {
    DeclaredAppend([Declare(l.id, l.value)], ChildLines(l.id, l.children));
    assert Declared([Declare(l.id, l.value)]) == [l.id];
    ChildDeclaresInPreOrder(l.id, l.children);
  }

  lemma {:induction false} ChildDeclaresInPreOrder(parent: int, ls: seq<Labelled>)
    ensures Declared(ChildLines(parent, ls)) == IdsForest(ls)
    decreases ls, 0
  {
    if ls != [] {
      var init, last := ls[..|ls| - 1], ls[|ls| - 1];
      var edge := [Connect(parent, last.id)];
      DeclaredAppend(ChildLines(parent, init), edge + BodyLines(last));
      DeclaredAppend(edge, BodyLines(last));
      assert Declared(edge) == [];
      ChildDeclaresInPreOrder(parent, init);
      DeclaresInPreOrder(last);
    }
  }

  /** Every edge line is followed at once by the declaration of the child it leads to. */
  predicate EdgeThenChild(lines: seq<Line>) {
    forall k :: 0 <= k < |lines| && lines[k].Connect? ==>
      k + 1 < |lines| && lines[k + 1].Declare? && lines[k + 1].id == lines[k].child
  }

  lemma EdgeThenChildAppend(a: seq<Line>, b: seq<Line>)
    requires EdgeThenChild(a) && EdgeThenChild(b)
    ensures EdgeThenChild(a + b)
  {
    var ab := a + b;
    forall k | 0 <= k < |ab| && ab[k].Connect?
      ensures k + 1 < |ab| && ab[k + 1].Declare? && ab[k + 1].id == ab[k].child
    {
      if k < |a| {
        assert a[k].Connect?;
      } else {
        assert b[k - |a|].Connect?;
      }
    }
  }

  lemma {:induction false} BodyEdgesThenChild(l: Labelled)
    ensures EdgeThenChild(BodyLines(l))
    decreases l, 1
  {
    ChildEdgesThenChild(l.id, l.children);
    EdgeThenChildAppend([Declare(l.id, l.value)], ChildLines(l.id, l.children));
  }

  lemma {:induction false} ChildEdgesThenChild(parent: int, ls: seq<Labelled>)
    ensures EdgeThenChild(ChildLines(parent, ls))
    decreases ls, 0
  {
    if ls != [] {
      var init, last := ls[..|ls| - 1], ls[|ls| - 1];
      var edge := [Connect(parent, last.id)];
      var body := BodyLines(last);
      ChildEdgesThenChild(parent, init);
      BodyEdgesThenChild(last);
      var tail := edge + body;
      forall k | 0 <= k < |tail| && tail[k].Connect?
        ensures k + 1 < |tail| && tail[k + 1].Declare? && tail[k + 1].id == tail[k].child
      {
        if k > 0 {
          assert body[k - 1].Connect?;
        }
      }
      EdgeThenChildAppend(ChildLines(parent, init), tail);
    }
  }

  /** Every declaration in the lines shows a one-character label: an operator or a digit. */
  predicate TokenLabels(lines: seq<Line>) {
    forall k :: 0 <= k < |lines| && lines[k].Declare? ==>
      |ValueText(lines[k].value)| == 1 && ValueText(lines[k].value)[0] in "+-*/0123456789"
  }

  lemma TokenLabelsAppend(a: seq<Line>, b: seq<Line>)
    requires TokenLabels(a) && TokenLabels(b)
    ensures TokenLabels(a + b)
  {
    var ab := a + b;
    forall k | 0 <= k < |ab| && ab[k].Declare?
      ensures |ValueText(ab[k].value)| == 1 && ValueText(ab[k].value)[0] in "+-*/0123456789"
    {
      if k < |a| {
        assert ab[k] == a[k];
      } else {
        assert ab[k] == b[k - |a|];
      }
    }
  }

  /** The label of a parsed node is its operator character or its digit. */
  lemma NodeLabel(n: Node, id: int)
    requires WellFormed(n)
    ensures TokenLabels([Declare(id, n.value)])
  {
    if n.kind == Num {
      assert ValueText(n.value) == [DigitChar(n.value.n)];
    }
  }

  /** Labelling and printing a parsed tree declares every node with its operator character or its
      digit as the label. */
  lemma {:induction false} ParsedTreeLabels(n: Node, start: int)
    requires WellFormed(n)
    ensures TokenLabels(BodyLines(LabelTree(n, start)))
    decreases n, 1
  {
    NodeLabel(n, start);
    assert forall i :: 0 <= i < |n.children| ==> WellFormed(n.children[i]);
    ParsedForestLabels(n.children, start + 1, start);
    TokenLabelsAppend([Declare(start, n.value)], ChildLines(start, LabelForest(n.children, start + 1)));
  }

  lemma {:induction false} ParsedForestLabels(ns: seq<Node>, start: int, parent: int)
    requires forall i :: 0 <= i < |ns| ==> WellFormed(ns[i])
    ensures TokenLabels(ChildLines(parent, LabelForest(ns, start)))
    decreases ns, 0
  {
    if ns != [] {
      var init, last := ns[..|ns| - 1], ns[|ns| - 1];
      var front, back := LabelForest(init, start), LabelTree(last, start + SizeForest(init));
      var ls := LabelForest(ns, start);
      assert ls == front + [back];
      assert ls[..|ls| - 1] == front && ls[|ls| - 1] == back;
      var edge := [Connect(parent, back.id)];
      assert ChildLines(parent, ls) == ChildLines(parent, front) + (edge + BodyLines(back));
      ParsedForestLabels(init, start, parent);
      ParsedTreeLabels(last, start + SizeForest(init));
      TokenLabelsAppend(edge, BodyLines(back));
      TokenLabelsAppend(ChildLines(parent, front), edge + BodyLines(back));
    }
  }

  /** The lines `to_graphviz` prints for a labelled tree: header, opening brace, body, closing brace. */
  function Graph(l: Labelled): seq<Line> {
    [Header, Open] + BodyLines(l) + [Close]
  }

  /** The module-global state of graphviz.py: the node counter, which starts at 1 and is never
      reset, and the lines printed so far (each one's characters are given by `Text`). */
  class Exporter {
    var nodeCounter: int
    var output: seq<Line>

    constructor ()
      ensures nodeCounter == 1 && output == []
    {
      nodeCounter := 1;
      output := [];
    }

    /** `label`: the node takes the counter's value, the counter moves on, and the children are
        labelled left to right. Returns the labelled copy of the tree. */
    method Label(n: Node) returns (l: Labelled)
      modifies this
      ensures l == LabelTree(n, old(nodeCounter))
      ensures nodeCounter == old(nodeCounter) + Size(n) && output == old(output)
      decreases n
    {
      var id := nodeCounter;
      nodeCounter := nodeCounter + 1;
      var children: seq<Labelled> := [];
      for i := 0 to |n.children|
        invariant children == LabelForest(n.children[..i], id + 1)
        invariant nodeCounter == id + 1 + SizeForest(n.children[..i])
        invariant output == old(output)
      {
        assert n.children[..i + 1][..i] == n.children[..i];
        var child := Label(n.children[i]);
        children := children + [child];
      }
      assert n.children[..|n.children|] == n.children;
      l := Labelled(id, n.kind, n.value, children);
    }

    /** `print`: one more output line. */
    method Emit(line: Line)
      modifies this
      ensures output == old(output) + [line] && nodeCounter == old(nodeCounter)
    {
      output := output + [line];
    }

    /** `to_graphviz`: the header, the body lines of the tree, the closing brace. */
    method ToGraphviz(l: Labelled)
      modifies this
      ensures output == old(output) + Graph(l) && nodeCounter == old(nodeCounter)
    {
      Emit(Header);
      Emit(Open);
      EmitNode(l);
      Emit(Close);
    }

    /** `_to_graphviz`: the node's declaration, then per child its edge line and its subtree. */
    method EmitNode(l: Labelled)
      modifies this
      ensures output == old(output) + BodyLines(l) && nodeCounter == old(nodeCounter)
      decreases l
    {
      Emit(Declare(l.id, l.value));
      for i := 0 to |l.children|
        invariant output == old(output) + [Declare(l.id, l.value)] + ChildLines(l.id, l.children[..i])
        invariant nodeCounter == old(nodeCounter)
      {
        var c := l.children[i];
        assert l.children[..i + 1][..i] == l.children[..i];
        Emit(Connect(l.id, c.id));
        EmitNode(c);
      }
      assert l.children[..|l.children|] == l.children;
    }
  }

  /** The counter is shared by all calls in one process: a second tree labelled after a first one
      continues the numbering, so the two trees' ids never collide. */
  method LabelTwice(first: Node, second: Node) returns (a: Labelled, b: Labelled)
    ensures a == LabelTree(first, 1) && b == LabelTree(second, 1 + Size(first))
    ensures forall x, y :: x in Ids(a) && y in Ids(b) ==> x < y
  {
    var exporter := new Exporter();
    a := exporter.Label(first);
    b := exporter.Label(second);
    LabelIds(first, 1);
    LabelIds(second, 1 + Size(first));
    forall x, y | x in Ids(a) && y in Ids(b)
      ensures x < y
    {
      InRange(x, 1, Size(first));
      InRange(y, 1 + Size(first), Size(second));
    }
  }
}
