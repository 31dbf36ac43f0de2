/** The stretch of source text that every expression remembers.

    A slot of the parser's stack is a union: the token that was shifted and the expression that replaces it
    share their memory.  The actions write the expression over the token in place.
 */
module SourceSpans {
  /** The address of a token's first character and its length; an expression's first character and the one
      after its last. */
  datatype Token = Token(z: int, n: int)

  datatype Span = Span(start: int, end: int)

  function EndOf(t: Token): int {
    t.z + t.n
  }

  // ----- The shapes of the rules -----

  /** Parts whose own text does not matter for the span are given as the tokens they consist of.

      Single: rules 151-153, 156-159 and 164.  Enclosed, from the first token to the last: rules 150, 154, 155,
      161-163, 165, 192, 195, 196, 247 and 248.  Extended, by tokens after an operand: rules 160, 178, 179,
      191 and 193.  Joined, two operands: rules 166-173, 176, 177, 180, 181 and 188.  Prefixed: rules 182-185.
      InTable: rule 194, where the database name and the list of arguments may both be missing. */
  datatype Phrase =
    | Single(token: Token)
    | Enclosed(first: Token, inner: seq<Token>, last: Token)
    | Extended(left: Phrase, inner: seq<Token>, last: Token)
    | Joined(left: Phrase, inner: seq<Token>, right: Phrase)
    | Prefixed(op: Token, right: Phrase)
    | InTable(left: Phrase, inner: seq<Token>, table: seq<Token>, arguments: seq<Token>)

  /** A table is a name, or two names with a dot in between. */
  predicate WellFormed(p: Phrase) {
    match p
    case Single(_) => true
    case Enclosed(_, _, _) => true
    case Extended(left, _, _) => WellFormed(left)
    case Joined(left, _, right) => WellFormed(left) && WellFormed(right)
    case Prefixed(_, right) => WellFormed(right)
    case InTable(left, _, table, _) => WellFormed(left) && (|table| == 1 || (|table| == 3 && table[2].z != 0))
  }

  function Yield(p: Phrase): (tokens: seq<Token>)
    requires WellFormed(p)
    ensures tokens != []
  {
    match p
    case Single(token) => [token]
    case Enclosed(first, inner, last) => [first] + inner + [last]
    case Extended(left, inner, last) => Yield(left) + inner + [last]
    case Joined(left, inner, right) => Yield(left) + inner + Yield(right)
    case Prefixed(op, right) => [op] + Yield(right)
    case InTable(left, inner, table, arguments) => Yield(left) + inner + table + arguments
  }

  /** What the actions compute, each from the spans of its operands. */
  function SpanOf(p: Phrase): Span
    requires WellFormed(p)
  {
    match p
    case Single(token) => Span(token.z, EndOf(token))
    case Enclosed(first, _, last) => Span(first.z, EndOf(last))
    case Extended(left, _, last) => Span(SpanOf(left).start, EndOf(last))
    case Joined(left, _, right) => Span(SpanOf(left).start, SpanOf(right).end)
    case Prefixed(op, right) => Span(op.z, SpanOf(right).end)
    case InTable(left, _, table, _) => Span(SpanOf(left).start, EndOf(table[|table|-1]))
  }

  /** The arguments that a table at the very end of the phrase is given. */
  function CutOff(p: Phrase): seq<Token> {
    match p
    case Joined(_, _, right) => CutOff(right)
    case Prefixed(_, right) => CutOff(right)
    case InTable(_, _, _, arguments) => arguments
    case _ => []
  }

  /** Each token begins at or after the end of the one before, and none is empty. */
  predicate InOrder(tokens: seq<Token>) {
    && (forall i :: 0 <= i < |tokens| ==> tokens[i].n > 0)
    && (forall i, j :: 0 <= i < j < |tokens| ==> EndOf(tokens[i]) <= tokens[j].z)
  }

  /** The first i + 1 tokens are all but those cut off, and the span covers exactly them. */
  ghost predicate Covers(p: Phrase, i: nat)
    requires WellFormed(p)
  {
    && i < |Yield(p)|
    && Yield(p)[i+1..] == CutOff(p)
    && SpanOf(p) == Span(Yield(p)[0].z, EndOf(Yield(p)[i]))
  }

  /** The span runs from the first token to the last before the arguments of a table at the end. */
  lemma {:induction false} SpanCovers(p: Phrase) returns (i: nat)
    requires WellFormed(p)
    ensures Covers(p, i)
  {
    var all := Yield(p);
    match p {
      case Single(token) =>
        i := 0;
      case Enclosed(first, inner, last) =>
        i := |all| - 1;
      case Extended(left, inner, last) =>
        var _ := SpanCovers(left);
        i := |all| - 1;
      case Joined(left, inner, right) =>
        var _ := SpanCovers(left);
        var k := SpanCovers(right);
        i := |Yield(left)| + |inner| + k;
        assert all[i+1..] == Yield(right)[k+1..];
      case Prefixed(op, right) =>
        var k := SpanCovers(right);
        i := 1 + k;
        assert all[i+1..] == Yield(right)[k+1..];
      case InTable(left, inner, table, arguments) =>
        var _ := SpanCovers(left);
        i := |Yield(left)| + |inner| + |table| - 1;
        assert all[i+1..] == arguments;
    }
  }

  /** For every phrase: the span is the whole of the text exactly when the phrase does not end in a table
      with arguments, and otherwise it stops short. */
  lemma {:induction false} SpanExact(p: Phrase)
    requires WellFormed(p) && InOrder(Yield(p))
    ensures SpanOf(p).start == Yield(p)[0].z
    ensures SpanOf(p).end == EndOf(Yield(p)[|Yield(p)|-1]) <==> CutOff(p) == []
    ensures CutOff(p) != [] ==> SpanOf(p).end <= CutOff(p)[0].z
  {
    var i := SpanCovers(p);
    LastEnd(Yield(p), i, CutOff(p));
  }

  lemma {:induction false} LastEnd(all: seq<Token>, i: nat, rest: seq<Token>)
    requires InOrder(all) && i < |all| && all[i+1..] == rest
    ensures EndOf(all[i]) == EndOf(all[|all|-1]) <==> rest == []
    ensures rest != [] ==> EndOf(all[i]) <= rest[0].z
  {
    if rest != [] {
      assert all[i+1] == rest[0];
      assert EndOf(all[i]) <= all[|all|-1].z;
    }
  }

  // ----- The slots -----

  /** Three words.  As a token, the first two are z and n; as an expression, they are pExpr and zStart, and
      the third is zEnd. */
  class Slot {
    var word0: int
    var word1: int
    var word2: int

    predicate IsToken(t: Token)
      reads this
    {
      word0 == t.z && word1 == t.n
    }

    predicate IsExpr(node: int, span: Span)
      reads this
    {
      word0 == node && word1 == span.start && word2 == span.end
    }
  }

  /** The result may take the place of the first token, though not that of the last. */
  method SpanSet(pOut: Slot, pStart: Slot, pEnd: Slot)
    modifies pOut
    ensures pOut.word0 == old(pOut.word0) && pOut.word1 == old(pStart.word0)
    ensures pOut.word2 == old(pEnd.word0) + if pEnd == pOut then old(pStart.word0) else old(pEnd.word1)
  {
    pOut.word1 := pStart.word0;
    pOut.word2 := pEnd.word0 + pEnd.word1;
  }

  /** The token is passed by value. */
  method SpanExpr(pOut: Slot, node: int, t: Token)
    modifies pOut
    ensures pOut.IsExpr(node, SpanOf(Single(t)))
  {
    pOut.word0 := node;
    pOut.word1 := t.z;
    pOut.word2 := EndOf(t);
  }

  method SpanBinaryExpr(pLeft: Slot, node: int, pRight: Slot, ghost left: Phrase, ghost inner: seq<Token>,
                        ghost right: Phrase)
    requires WellFormed(left) && WellFormed(right)
    requires pLeft.IsExpr(pLeft.word0, SpanOf(left)) && pRight.IsExpr(pRight.word0, SpanOf(right))
    modifies pLeft
    ensures pLeft.IsExpr(node, SpanOf(Joined(left, inner, right)))
  {
    pLeft.word0 := node;
    pLeft.word2 := pRight.word2;
  }

  method SpanUnaryPostfix(node: int, pOperand: Slot, pPostOp: Slot, ghost left: Phrase, ghost inner: seq<Token>,
                          ghost op: Token)
    requires WellFormed(left) && pOperand.IsExpr(pOperand.word0, SpanOf(left)) && pPostOp.IsToken(op)
    requires pOperand != pPostOp
    modifies pOperand
    ensures pOperand.IsExpr(node, SpanOf(Extended(left, inner, op)))
  {
    pOperand.word0 := node;
    pOperand.word2 := pPostOp.word0 + pPostOp.word1;
  }

  /** The result takes the place of the operator. */
  method SpanUnaryPrefix(pOut: Slot, node: int, pOperand: Slot, pPreOp: Slot, ghost op: Token, ghost right: Phrase)
    requires pPreOp.IsToken(op) && WellFormed(right) && pOperand.IsExpr(pOperand.word0, SpanOf(right))
    requires pOut != pOperand
    modifies pOut
    ensures pOut.IsExpr(node, SpanOf(Prefixed(op, right)))
  {
    pOut.word1 := pPreOp.word0;
    pOut.word0 := node;
    pOut.word2 := pOperand.word2;
  }

  /** expr ::= LP expr RP; the result takes the place of the LP. */
  method ReduceParentheses(lp: Slot, e: Slot, rp: Slot, ghost first: Token, ghost inner: Phrase, ghost last: Token)
    requires lp != e && lp != rp && WellFormed(inner)
    requires lp.IsToken(first) && e.IsExpr(e.word0, SpanOf(inner)) && rp.IsToken(last)
    modifies lp
    ensures lp.IsExpr(e.word0, SpanOf(Enclosed(first, Yield(inner), last)))
  {
    SpanSet(lp, lp, rp);
    lp.word0 := e.word0;
  }

  /** expr ::= VARIABLE of the form #N: first, last and result are one slot, so the token is saved. */
  method ReduceRegister(slot: Slot, node: int, ghost token: Token)
    requires slot.IsToken(token)
    modifies slot
    ensures slot.IsExpr(node, SpanOf(Single(token)))
  {
    var t := new Slot;
    t.word0, t.word1 := slot.word0, slot.word1;
    SpanSet(slot, t, t);
    slot.word0 := node;
  }

  /** term ::= CTIME_KW: the result is built aside and copied over the token. */
  method ReduceCurrentTime(slot: Slot, node: int, ghost token: Token)
    requires slot.IsToken(token)
    modifies slot
    ensures slot.IsExpr(node, SpanOf(Single(token)))
  {
    var result := new Slot;
    result.word0 := node;
    SpanSet(result, slot, slot);
    slot.word0, slot.word1, slot.word2 := result.word0, result.word1, result.word2;
  }

  /** expr ::= expr in_op nm dbnm paren_exprlist; a missing database name is a token at address 0. */
  method ReduceInTable(e: Slot, node: int, nm: Slot, dbnm: Slot, ghost left: Phrase, ghost inner: seq<Token>,
                       ghost table: seq<Token>, ghost arguments: seq<Token>)
    requires e != nm && e != dbnm && WellFormed(InTable(left, inner, table, arguments))
    requires e.IsExpr(e.word0, SpanOf(left)) && nm.IsToken(table[0])
    requires if |table| == 1 then dbnm.word0 == 0 else dbnm.IsToken(table[2])
    modifies e
    ensures e.IsExpr(node, SpanOf(InTable(left, inner, table, arguments)))
  {
    e.word0 := node;
    e.word2 := if dbnm.word0 != 0 then dbnm.word0 + dbnm.word1 else nm.word0 + nm.word1;
  }
}
