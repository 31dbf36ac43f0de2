/** The expression nodes that the actions for IS and IN allocate and change in place, tied to the trees of
    ExprRewrites. */
module ExprNodes {
  import opened ExprTrees
  import opened ExprRewrites

  datatype Op =
    | TK_LEAF(id: nat)
    | TK_ALIAS(id: nat)
    | TK_INTEGER(n: int)
    | TK_NULL
    | TK_COLLATE(name: nat)
    | TK_LIKELY
    | TK_UNARY(uop: UnaryOp)
    | TK_BINARY(bop: BinaryOp)
    | TK_IN
    | TK_CASE

  class Node {
    var op: Op
    var flags: Flags
    var pLeft: Node?
    var pRight: Node?
    var pList: seq<Node>

    /** sqlite3PExpr: the COLLATE flag of either operand spreads to the new node. */
    constructor (op: Op, pLeft: Node?, pRight: Node?)
      ensures this.op == op && this.pLeft == pLeft && this.pRight == pRight && pList == []
      ensures flags == FlagsFrom((pLeft != null && pLeft.flags.collate) || (pRight != null && pRight.flags.collate))
    {
      this.op, this.pLeft, this.pRight, pList := op, pLeft, pRight, [];
      flags := FlagsFrom((pLeft != null && pLeft.flags.collate) || (pRight != null && pRight.flags.collate));
    }
  }

  /** The node and those below it, all within the footprint, are the tree. */
  ghost predicate Shows(n: Node, e: Expr, foot: set<Node>)
    reads foot
    decreases e, 1
  {
    && n in foot && n.flags == e.flags
    && match e
      case Leaf(id, _) => n.op == TK_LEAF(id)
      case Alias(id, _) => n.op == TK_ALIAS(id)
      case Number(v, _) => n.op == TK_INTEGER(v)
      case NullLiteral(_) => n.op == TK_NULL
      case Collated(operand, name, _) =>
        n.op == TK_COLLATE(name) && n.pLeft != null && Shows(n.pLeft, operand, foot - {n})
      case Likely(operand, _) =>
        n.op == TK_LIKELY && |n.pList| == 1 && Shows(n.pList[0], operand, foot - {n})
      case Unary(op, operand, _) =>
        n.op == TK_UNARY(op) && n.pLeft != null && n.pRight == null && Shows(n.pLeft, operand, foot - {n})
      case Binary(op, left, right, _) =>
        && n.op == TK_BINARY(op) && n.pLeft != null && n.pRight != null
        && Shows(n.pLeft, left, foot - {n}) && Shows(n.pRight, right, foot - {n})
      case InList(left, list, _) =>
        n.op == TK_IN && n.pLeft != null && Shows(n.pLeft, left, foot - {n}) && ShowAll(n.pList, list, foot - {n})
      case CaseList(base, list, _) =>
        && n.op == TK_CASE && (n.pLeft != null <==> base.Some?)
        && (base.Some? ==> Shows(n.pLeft, base.value, foot - {n})) && ShowAll(n.pList, list, foot - {n})
  }

  ghost predicate ShowAll(nodes: seq<Node>, list: seq<Expr>, foot: set<Node>)
    reads foot
    decreases list, 0
  {
    |nodes| == |list| && forall i :: 0 <= i < |list| ==> Shows(nodes[i], list[i], foot)
  }

  lemma {:induction false} ShowsWithin(n: Node, e: Expr, foot: set<Node>, foot': set<Node>)
    requires Shows(n, e, foot) && foot <= foot'
    ensures Shows(n, e, foot')
    decreases e, 1
  {
    match e {
      case Leaf(_, _) =>
      case Alias(_, _) =>
      case Number(_, _) =>
      case NullLiteral(_) =>
      case Collated(operand, _, _) => ShowsWithin(n.pLeft, operand, foot - {n}, foot' - {n});
      case Likely(operand, _) => ShowsWithin(n.pList[0], operand, foot - {n}, foot' - {n});
      case Unary(_, operand, _) => ShowsWithin(n.pLeft, operand, foot - {n}, foot' - {n});
      case Binary(_, left, right, _) =>
        ShowsWithin(n.pLeft, left, foot - {n}, foot' - {n});
        ShowsWithin(n.pRight, right, foot - {n}, foot' - {n});
      case InList(left, list, _) =>
        ShowsWithin(n.pLeft, left, foot - {n}, foot' - {n});
        ShowAllWithin(n.pList, list, foot - {n}, foot' - {n});
      case CaseList(base, list, _) =>
        if base.Some? {
          ShowsWithin(n.pLeft, base.value, foot - {n}, foot' - {n});
        }
        ShowAllWithin(n.pList, list, foot - {n}, foot' - {n});
    }
  }

  lemma {:induction false} ShowAllWithin(nodes: seq<Node>, list: seq<Expr>, foot: set<Node>, foot': set<Node>)
    requires ShowAll(nodes, list, foot) && foot <= foot'
    ensures ShowAll(nodes, list, foot')
    decreases list, 0
  {
    forall i | 0 <= i < |list| ensures Shows(nodes[i], list[i], foot') {
      ShowsWithin(nodes[i], list[i], foot, foot');
    }
  }

  /** A node is one tree at most. */
  lemma {:induction false} ShowsOne(n: Node, e: Expr, e': Expr, foot: set<Node>, foot': set<Node>)
    requires Shows(n, e, foot) && Shows(n, e', foot')
    ensures e == e'
    decreases e, 1
  {
    match e {
      case Leaf(_, _) =>
      case Alias(_, _) =>
      case Number(_, _) =>
      case NullLiteral(_) =>
      case Collated(operand, _, _) => ShowsOne(n.pLeft, operand, e'.operand, foot - {n}, foot' - {n});
      case Likely(operand, _) => ShowsOne(n.pList[0], operand, e'.operand, foot - {n}, foot' - {n});
      case Unary(_, operand, _) => ShowsOne(n.pLeft, operand, e'.operand, foot - {n}, foot' - {n});
      case Binary(_, left, right, _) =>
        ShowsOne(n.pLeft, left, e'.left, foot - {n}, foot' - {n});
        ShowsOne(n.pRight, right, e'.right, foot - {n}, foot' - {n});
      case InList(left, list, _) =>
        ShowsOne(n.pLeft, left, e'.left, foot - {n}, foot' - {n});
        ShowAllOne(n.pList, list, e'.list, foot - {n}, foot' - {n});
      case CaseList(base, list, _) =>
        if base.Some? {
          ShowsOne(n.pLeft, base.value, e'.base.value, foot - {n}, foot' - {n});
        }
        ShowAllOne(n.pList, list, e'.list, foot - {n}, foot' - {n});
    }
  }

  lemma {:induction false} ShowAllOne(nodes: seq<Node>, list: seq<Expr>, list': seq<Expr>,
                                      foot: set<Node>, foot': set<Node>)
    requires ShowAll(nodes, list, foot) && ShowAll(nodes, list', foot')
    ensures list == list'
    decreases list, 0
  {
    forall i | 0 <= i < |list| ensures list[i] == list'[i] {
      ShowsOne(nodes[i], list[i], list'[i], foot, foot');
    }
  }

  lemma ShowsNumber(n: Node, value: int)
    requires n.op == TK_INTEGER(value)
    ensures Shows(n, Number(value, n.flags), {n})
  {
  }

  lemma {:induction false} ShowsUnary(n: Node, op: UnaryOp, operand: Expr, foot: set<Node>)
    requires n.op == TK_UNARY(op) && n.pLeft != null && n.pRight == null
    requires n !in foot && Shows(n.pLeft, operand, foot)
    ensures Shows(n, Unary(op, operand, n.flags), foot + {n})
  {
    assert foot + {n} - {n} == foot;
  }

  lemma {:induction false} ShowsBinary(n: Node, op: BinaryOp, left: Expr, right: Expr, foot: set<Node>)
    requires n.op == TK_BINARY(op) && n.pLeft != null && n.pRight != null
    requires n !in foot && Shows(n.pLeft, left, foot) && Shows(n.pRight, right, foot)
    ensures Shows(n, Binary(op, left, right, n.flags), foot + {n})
  {
    assert foot + {n} - {n} == foot;
  }

  lemma {:induction false} ShowsIn(n: Node, left: Expr, list: seq<Expr>, foot: set<Node>)
    requires n.op == TK_IN && n.pLeft != null
    requires n !in foot && Shows(n.pLeft, left, foot) && ShowAll(n.pList, list, foot)
    ensures Shows(n, InList(left, list, n.flags), foot + {n})
  {
    assert foot + {n} - {n} == foot;
  }

  /** The node for a binary operator becomes that for a unary one if its right-hand side is NULL. */
  method BinaryToUnaryIfNull(pY: Node, pA: Node, op: UnaryOp)
    modifies pA
    ensures pA.flags == old(pA.flags) && pA.pLeft == old(pA.pLeft) && pA.pList == old(pA.pList)
    ensures if old(pY.op) == TK_NULL then pA.op == TK_UNARY(op) && pA.pRight == null
            else pA.op == old(pA.op) && pA.pRight == old(pA.pRight)
  {
    if pY.op == TK_NULL {
      pA.op := TK_UNARY(op);
      pA.pRight := null;
    }
  }

  lemma NullNode(n: Node, e: Expr, foot: set<Node>)
    requires Shows(n, e, foot)
    ensures n.op == TK_NULL <==> e.NullLiteral?
  {
  }

  method NewBinary(op: BinaryOp, pLeft: Node, pRight: Node, ghost left: Expr, ghost right: Expr, ghost foot: set<Node>)
    returns (p: Node)
    requires Shows(pLeft, left, foot) && Shows(pRight, right, foot)
    ensures fresh(p) && p.op == TK_BINARY(op) && p.pLeft == pLeft && p.pRight == pRight
    ensures p.flags == MakeBinary(op, left, right).flags
  {
    p := new Node(TK_BINARY(op), pLeft, pRight);
  }

  /** expr ::= expr IS expr, and expr ::= expr IS NOT expr */
  method ReduceIs(pLeft: Node, neg: bool, pRight: Node, ghost left: Expr, ghost right: Expr, ghost foot: set<Node>)
    returns (p: Node)
    requires Shows(pLeft, left, foot) && Shows(pRight, right, foot)
    ensures fresh(p) && Shows(p, IsAction(left, neg, right), foot + {p})
    ensures p.pLeft == pLeft && p.pRight == if right.NullLiteral? then null else pRight
  {
    hide Shows;
    NullNode(pRight, right, foot);
    p := NewBinary(if neg then IsNot else Is, pLeft, pRight, left, right, foot);
    BinaryToUnaryIfNull(pRight, p, if neg then NotNull else IsNull);
    if right.NullLiteral? {
      ShowsUnary(p, if neg then NotNull else IsNull, left, foot);
    } else {
      ShowsBinary(p, if neg then IsNot else Is, left, right, foot);
    }
  }

  /** Whether a flag of the list spreads to the node that holds it. */
  method ListCollate(items: seq<Node>) returns (any: bool)
    ensures any <==> exists i :: 0 <= i < |items| && items[i].flags.collate
  {
    any := false;
    for k := 0 to |items|
      invariant any <==> exists i :: 0 <= i < k && items[i].flags.collate
    {
      any := any || items[k].flags.collate;
    }
  }

  /** Marks the right-hand side of a comparison that stands for IN. */
  method MarkGeneric(pRHS: Node, ghost e: Expr, ghost foot: set<Node>)
    requires Shows(pRHS, e, foot)
    modifies pRHS`flags
    ensures Shows(pRHS, Generic(e), foot)
  {
    pRHS.flags := pRHS.flags.(collate := false);
    pRHS.flags := pRHS.flags.(generic := true);
    ghost var below := foot - {pRHS};
    match e {
      case InList(_, list, _) => assert ShowAll(pRHS.pList, list, below);
      case CaseList(_, list, _) => assert ShowAll(pRHS.pList, list, below);
      case _ =>
    }
  }

  /** expr ::= expr in_op LP exprlist RP.  The one item of a list is marked in place, so it must not be part
      of the left-hand side as well. */
  method ReduceIn(pLeft: Node, neg: bool, items: seq<Node>, ghost left: Expr, ghost list: seq<Expr>,
                  ghost foot: set<Node>, ghost feet: set<Node>)
    returns (p: Node, ghost all: set<Node>)
    requires Shows(pLeft, left, foot) && ShowAll(items, list, feet) && foot !! feet
    modifies set n | n in items && |items| == 1
    ensures fresh(p) && fresh(all - foot - feet) && Shows(p, InAction(left, neg, list), all)
  {
    hide Shows;
    if |items| == 0 {
      p := new Node(TK_INTEGER(if neg then 1 else 0), null, null);
      all := {p};
      ShowsNumber(p, if neg then 1 else 0);
    } else if |items| == 1 {
      MarkGeneric(items[0], list[0], feet);
      p := new Node(TK_BINARY(if neg then Ne else Eq), pLeft, items[0]);
      all := foot + feet + {p};
      ShowsWithin(pLeft, left, foot, foot + feet);
      ShowsWithin(items[0], Generic(list[0]), feet, foot + feet);
      ShowsBinary(p, if neg then Ne else Eq, left, Generic(list[0]), foot + feet);
    } else {
      p, all := NewIn(pLeft, items, left, list, foot, feet);
      if neg {
        ghost var e := InList(left, list, FlagsFrom(left.flags.collate || SomeCollate(list)));
        p := new Node(TK_UNARY(Not), p, null);
        ShowsUnary(p, Not, e, all);
        all := all + {p};
      }
    }
  }

  method NewIn(pLeft: Node, items: seq<Node>, ghost left: Expr, ghost list: seq<Expr>, ghost foot: set<Node>,
               ghost feet: set<Node>)
    returns (p: Node, ghost all: set<Node>)
    requires Shows(pLeft, left, foot) && ShowAll(items, list, feet)
    ensures fresh(p) && all == foot + feet + {p}
    ensures Shows(p, InList(left, list, FlagsFrom(left.flags.collate || SomeCollate(list))), all)
  {
    p := new Node(TK_IN, pLeft, null);
    p.pList := items;
    var any := ListCollate(items);
    assert any == SomeCollate(list) by {
      assert forall i :: 0 <= i < |list| ==> Shows(items[i], list[i], feet);
    }
    p.flags := p.flags.(collate := p.flags.collate || any);
    all := foot + feet + {p};
    ShowsWithin(pLeft, left, foot, foot + feet);
    ShowAllWithin(items, list, feet, foot + feet);
    ShowsIn(p, left, list, foot + feet);
  }
}
