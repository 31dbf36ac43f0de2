/** The SELECT objects of the parser and the actions that allocate, relink and flag them. */
module SelectObjects {
  import opened SelectChain

  /** Where the rows of one term come from. */
  datatype Source = FromRow(row: Row) | FromQuery(id: nat) | FromSubquery(pSelect: Select)

  class Select {
    var op: Op
    var selFlags: Flags
    var pPrior: Select?
    var pNext: Select?
    const source: Source
    /** The term's meaning; for a subquery, that of the chain it was made of. */
    ghost const core: Core

    constructor (source: Source, selFlags: Flags, ghost core: Core)
      ensures this.source == source && this.core == core
      ensures op == Plain && this.selFlags == selFlags && pPrior == null && pNext == null
    {
      this.source, this.core := source, core;
      op, this.selFlags, pPrior, pNext := Plain, selFlags, null, null;
    }

    ghost predicate SourceRight() {
      match source
      case FromRow(row) => core == RowOf(row)
      case FromQuery(id) => core == QueryOf(id)
      case FromSubquery(_) => core.SubqueryOf?
    }
  }

  ghost predicate IsTerm(p: Select, term: Term)
    reads p
  {
    p.op == term.op && p.selFlags == term.flags && p.core == term.core && p.SourceRight()
  }

  ghost predicate AllDifferent(nodes: seq<Select>) {
    forall i, j :: 0 <= i < j < |nodes| ==> nodes[i] != nodes[j]
  }

  /** The object that pPrior of the i-th must point to. */
  function Before(nodes: seq<Select>, i: nat): Select?
    requires i < |nodes|
  {
    if i == 0 then null else nodes[i-1]
  }

  /** The object that pNext of the i-th must point to. */
  function After(nodes: seq<Select>, i: nat): Select?
    requires i < |nodes|
  {
    if i == |nodes| - 1 then null else nodes[i+1]
  }

  ghost predicate HoldsAt(nodes: seq<Select>, i: nat, term: Term)
    requires i < |nodes|
    reads nodes[i]
  {
    nodes[i].pPrior == Before(nodes, i) && IsTerm(nodes[i], term)
  }

  ghost predicate NextAt(nodes: seq<Select>, i: nat)
    requires i < |nodes|
    reads nodes[i]
  {
    nodes[i].pNext == After(nodes, i)
  }

  /** The objects hold the chain, first term first, and following pPrior from the last of them leads
      through all to the first; the parser keeps a pointer to the last. */
  ghost predicate Holds(nodes: seq<Select>, chain: seq<Term>)
    reads nodes
  {
    && nodes != [] && |nodes| == |chain| && AllDifferent(nodes)
    && forall i :: 0 <= i < |nodes| ==> HoldsAt(nodes, i, chain[i])
  }

  /** Every object with one before it is the one that pNext of that points back to. */
  ghost predicate NextsLinked(nodes: seq<Select>)
    reads nodes
  {
    forall i :: 0 <= i < |nodes| ==> NextAt(nodes, i)
  }

  function UnflaggedAt(chain: seq<Term>, i: nat): Term
    requires i < |chain|
  {
    if i == |chain| - 1 then Unflagged(chain[i]) else chain[i]
  }

  /** Pushing one object on a chain whose head has lost its flag. */
  lemma {:induction false} HoldsPushed(nodes: seq<Select>, p: Select, chain: seq<Term>, term: Term)
    requires nodes != [] && |nodes| == |chain| && AllDifferent(nodes) && p !in nodes
    requires forall i :: 0 <= i < |nodes| ==> HoldsAt(nodes, i, UnflaggedAt(chain, i))
    requires p.pPrior == nodes[|nodes|-1] && IsTerm(p, term)
    ensures Holds(nodes + [p], HeadUnflagged(chain) + [term])
  {
    var all, other := nodes + [p], HeadUnflagged(chain) + [term];
    forall i | 0 <= i < |all| ensures HoldsAt(all, i, other[i]) {
      if i < |nodes| {
        assert HoldsAt(nodes, i, UnflaggedAt(chain, i));
        assert other[i] == UnflaggedAt(chain, i);
      }
    }
  }

  function MarkedAbove(chain: seq<Term>, i: int, j: nat): Term
    requires j < |chain|
  {
    if j > i then chain[j].(flags := With(chain[j].flags, SF_Compound)) else chain[j]
  }

  /** The objects above the i-th have been linked and marked. */
  ghost predicate DoneAbove(nodes: seq<Select>, chain: seq<Term>, i: int, j: nat)
    requires j < |nodes| == |chain|
    reads nodes[j]
  {
    HoldsAt(nodes, j, MarkedAbove(chain, i, j)) && (j > i ==> NextAt(nodes, j))
  }

  /** Linked objects carry the mark. */
  lemma {:induction false} LinkedMarks(nodes: seq<Select>, chain: seq<Term>)
    requires |chain| > 1 && Holds(nodes, Linked(chain))
    ensures forall i :: 0 <= i < |nodes| ==> nodes[i].selFlags.bits & SF_Compound != 0
  {
    forall i | 0 <= i < |nodes| ensures nodes[i].selFlags.bits & SF_Compound != 0 {
      assert HoldsAt(nodes, i, Linked(chain)[i]);
      WithBits(chain[i].flags, SF_Compound);
    }
  }

  /** Makes every pNext point back up the chain and marks the terms, if there are two or more; says
      whether there are more than the limit allows. */
  method DoubleLink(p: Select, mxSelect: int, ghost nodes: seq<Select>, ghost chain: seq<Term>) returns (tooMany: bool)
    requires Holds(nodes, chain) && p == nodes[|nodes|-1]
    modifies nodes
    ensures Holds(nodes, Linked(chain))
    ensures |nodes| > 1 ==> NextsLinked(nodes)
    ensures |nodes| > 1 ==> forall i :: 0 <= i < |nodes| ==> nodes[i].selFlags.bits & 0x100 != 0
    ensures |nodes| == 1 ==> p.pNext == old(p.pNext)
    ensures tooMany <==> |chain| > 1 && !IsMulti(chain[|chain|-1].flags) && 0 < mxSelect < |chain|
  {
    tooMany := false;
    ghost var n := |nodes|;
    assert HoldsAt(nodes, n - 1, chain[n-1]);
    if p.pPrior != null {
      var pNext: Select?, pLoop: Select?, cnt := null, p, 0;
      ghost var i := n - 1;
      forall j | 0 <= j < n ensures DoneAbove(nodes, chain, i, j) {
        assert HoldsAt(nodes, j, chain[j]);
      }
      while pLoop != null
        invariant -1 <= i < n && cnt == n - 1 - i
        invariant if i < 0 then pLoop == null else pLoop == nodes[i]
        invariant if i == n - 1 then pNext == null else pNext == nodes[i+1]
        invariant forall j :: 0 <= j < n ==> DoneAbove(nodes, chain, i, j)
        decreases i
      {
        assert DoneAbove(nodes, chain, i, i);
        ghost var next := i - 1;
        label Round:
        pLoop.pNext := pNext;
        pLoop.selFlags := With(pLoop.selFlags, SF_Compound);
        forall j | 0 <= j < n ensures DoneAbove(nodes, chain, next, j) {
          assert old@Round(DoneAbove(nodes, chain, i, j));
          assert j != i ==> nodes[j] != nodes[i];
        }
        pNext, pLoop, cnt := pLoop, pLoop.pPrior, cnt + 1;
        i := next;
      }
      forall j | 0 <= j < n ensures NextAt(nodes, j) && HoldsAt(nodes, j, Linked(chain)[j]) {
        assert DoneAbove(nodes, chain, -1, j);
      }
      LinkedMarks(nodes, chain);
      FlagAdded(chain[n-1].flags);
      assert HoldsAt(nodes, n - 1, Linked(chain)[n-1]);
      if !IsMulti(p.selFlags) && mxSelect > 0 && cnt > mxSelect {
        tooMany := true;
      }
    }
  }

  /** The head of a chain is about to have another on top of it. */
  method ClearMulti(p: Select, ghost nodes: seq<Select>, ghost chain: seq<Term>)
    requires Holds(nodes, chain) && p == nodes[|nodes|-1]
    modifies p`selFlags
    ensures forall i :: 0 <= i < |nodes| ==> HoldsAt(nodes, i, UnflaggedAt(chain, i))
  {
    p.selFlags := Without(p.selFlags, SF_MultiValue);
    forall i | 0 <= i < |nodes| ensures HoldsAt(nodes, i, UnflaggedAt(chain, i)) {
      assert old(HoldsAt(nodes, i, chain[i]));
    }
  }

  /** values ::= VALUES LP nexprlist RP */
  method ValuesFirst(row: Row) returns (p: Select)
    ensures fresh(p) && Holds([p], FirstRow(row))
  {
    p := new Select(FromRow(row), Flags(SF_Values), RowOf(row));
  }

  /** values ::= values COMMA LP exprlist RP */
  method ValuesNext(pLeft: Select, row: Row, ghost nodes: seq<Select>, ghost chain: seq<Term>) returns (pRight: Select)
    requires Holds(nodes, chain) && pLeft == nodes[|nodes|-1]
    modifies pLeft`selFlags
    ensures fresh(pRight) && Holds(nodes + [pRight], NextRow(chain, row))
  {
    pRight := new Select(FromRow(row), Flags(SF_Values | SF_MultiValue), RowOf(row));
    ClearMulti(pLeft, nodes, chain);
    pRight.op := All;
    pRight.pPrior := pLeft;
    HoldsPushed(nodes, pRight, chain, Term(All, Flags(SF_Values | SF_MultiValue), RowOf(row)));
  }

  /** The first half of the action below: a right-hand side of several terms becomes a subquery. */
  method Wrap(pRhs: Select, mxSelect: int, ghost right: seq<Select>, ghost rchain: seq<Term>)
    returns (head: Select, tooMany: bool)
    requires Holds(right, rchain) && pRhs == right[|right|-1]
    modifies right
    ensures IsTerm(head, AsOneTerm(rchain))
    ensures |rchain| == 1 ==> head == pRhs && !tooMany
    ensures |rchain| > 1 ==>
      && fresh(head) && head.source == FromSubquery(pRhs)
      && Holds(right, Linked(rchain)) && NextsLinked(right)
      && (tooMany <==> !IsMulti(rchain[|rchain|-1].flags) && 0 < mxSelect < |rchain|)
  {
    head, tooMany := pRhs, false;
    assert HoldsAt(right, |right| - 1, rchain[|right|-1]);
    if pRhs.pPrior != null {
      tooMany := DoubleLink(pRhs, mxSelect, right, rchain);
      label Marked:
      head := new Select(FromSubquery(pRhs), Flags(0), SubqueryOf(Linked(rchain)));
      forall i | 0 <= i < |right| ensures HoldsAt(right, i, Linked(rchain)[i]) && NextAt(right, i) {
        assert old@Marked(HoldsAt(right, i, Linked(rchain)[i]) && NextAt(right, i));
      }
    }
  }

  /** The second half: the one term left becomes the head of the chain. */
  method Attach(pLhs: Select, op: Op, head: Select, ghost left: seq<Select>, ghost lchain: seq<Term>, ghost term: Term)
    requires Holds(left, lchain) && pLhs == left[|left|-1] && head !in left
    requires IsTerm(head, term)
    modifies pLhs`selFlags, head
    ensures Holds(left + [head], HeadUnflagged(lchain) + [Unflagged(term).(op := op)])
  {
    head.op := op;
    head.pPrior := pLhs;
    ClearMulti(pLhs, left, lchain);
    label Cleared:
    head.selFlags := Without(head.selFlags, SF_MultiValue);
    forall i | 0 <= i < |left| ensures HoldsAt(left, i, UnflaggedAt(lchain, i)) {
      assert old@Cleared(HoldsAt(left, i, UnflaggedAt(lchain, i)));
    }
    HoldsPushed(left, head, lchain, Unflagged(term).(op := op));
  }

  /** selectnowith ::= selectnowith multiselect_op oneselect */
  method Join(pLhs: Select, op: Op, pRhs: Select, mxSelect: int,
              ghost left: seq<Select>, ghost lchain: seq<Term>, ghost right: seq<Select>, ghost rchain: seq<Term>)
    returns (head: Select, tooMany: bool)
    requires Holds(left, lchain) && pLhs == left[|left|-1]
    requires Holds(right, rchain) && pRhs == right[|right|-1]
    requires forall i, j :: 0 <= i < |left| && 0 <= j < |right| ==> left[i] != right[j]
    modifies pLhs`selFlags, right
    ensures Holds(left + [head], Joined(lchain, op, rchain))
    ensures |rchain| == 1 ==> head == pRhs && !tooMany
    ensures |rchain| > 1 ==>
      && fresh(head) && head.source == FromSubquery(pRhs)
      && Holds(right, Linked(rchain)) && NextsLinked(right)
      && (tooMany <==> !IsMulti(rchain[|rchain|-1].flags) && 0 < mxSelect < |rchain|)
  {
    head, tooMany := Wrap(pRhs, mxSelect, right, rchain);
    forall i | 0 <= i < |left| ensures HoldsAt(left, i, lchain[i]) {
      assert old(HoldsAt(left, i, lchain[i]));
    }
    label Wrapped:
    Attach(pLhs, op, head, left, lchain, AsOneTerm(rchain));
    if |rchain| > 1 {
      forall i | 0 <= i < |right| ensures HoldsAt(right, i, Linked(rchain)[i]) && NextAt(right, i) {
        assert old@Wrapped(HoldsAt(right, i, Linked(rchain)[i]) && NextAt(right, i));
        assert right[i] != head && right[i] != pLhs;
      }
    }
  }

  /** The rows that the terms of a VALUES clause hold. */
  ghost function RowsOf(chain: seq<Term>): seq<Row>
    requires IsRowList(chain)
  {
    seq(|chain|, i requires 0 <= i < |chain| => chain[i].core.row)
  }

  /** Code generation for a SELECT of one row; with another before it, it would be coded as a compound. */
  method CodeRow(p: Select) returns (row: Row)
    requires p.source.FromRow? && p.pPrior == null
    ensures row == p.source.row
  {
    row := p.source.row;
  }

  /** Codes one row as a SELECT with none before it, and puts the link back. */
  method CodeAlone(p: Select, ghost nodes: seq<Select>, ghost chain: seq<Term>, ghost i: nat) returns (row: Row)
    requires Holds(nodes, chain) && NextsLinked(nodes) && IsRowList(chain)
    requires i < |nodes| && p == nodes[i]
    modifies p`pPrior
    ensures row == RowsOf(chain)[i]
    ensures Holds(nodes, chain) && NextsLinked(nodes)
  {
    assert HoldsAt(nodes, i, chain[i]);
    var pPrior := p.pPrior;
    p.pPrior := null;
    row := CodeRow(p);
    p.pPrior := pPrior;
    forall j | 0 <= j < |nodes| ensures HoldsAt(nodes, j, chain[j]) && NextAt(nodes, j) {
      assert old(HoldsAt(nodes, j, chain[j]) && NextAt(nodes, j));
    }
  }

  /** Code generation for a flagged chain: down the pPrior links to the first row, then up the pNext links.
      Each row is coded while it is cut off from the rows before it, and put back.  The asserts are those of
      the original. */
  method MultiSelectValues(head: Select, ghost nodes: seq<Select>, ghost chain: seq<Term>) returns (rows: seq<Row>)
    requires Holds(nodes, chain) && head == nodes[|nodes|-1] && NextsLinked(nodes)
    requires IsRowList(chain) && IsMulti(head.selFlags)
    modifies nodes`pPrior
    ensures rows == RowsOf(chain)
    ensures Holds(nodes, chain) && NextsLinked(nodes)
  {
    var p := head;
    ghost var i := |nodes| - 1;
    while p.pPrior != null
      invariant 0 <= i < |nodes| && p == nodes[i]
      invariant Holds(nodes, chain) && NextsLinked(nodes)
      decreases i
    {
      assert HoldsAt(nodes, i, chain[i]) && NextAt(nodes, i - 1);
      assert IsValues(p.selFlags) && p.op == All;
      assert p.pPrior.pNext == p;
      p := p.pPrior;
      i := i - 1;
    }
    assert HoldsAt(nodes, i, chain[i]);
    assert IsValues(p.selFlags) && p.op == Plain;
    rows := [];
    var q: Select? := p;
    while q != null
      invariant 0 <= i <= |nodes| && if i < |nodes| then q == nodes[i] else q == null
      invariant Holds(nodes, chain) && NextsLinked(nodes)
      invariant rows == RowsOf(chain)[..i]
      decreases |nodes| - i
    {
      assert HoldsAt(nodes, i, chain[i]) && NextAt(nodes, i);
      var row := CodeAlone(q, nodes, chain, i);
      rows := rows + [row];
      q := q.pNext;
      i := i + 1;
    }
  }

  lemma {:induction false} RowsOfTerms(db: nat -> multiset<Row>, chain: seq<Term>)
    requires IsRowList(chain)
    ensures TermRows(db, chain) == RowBag(RowsOf(chain))
  {
    if chain != [] {
      var front := chain[..|chain|-1];
      RowsOfTerms(db, front);
      assert RowsOf(chain)[..|chain|-1] == RowsOf(front);
    }
  }

  /** The term limit is reported for a whole statement exactly when it is not one VALUES clause and has
      more terms than a positive limit. */
  lemma {:induction false} LimitSparesRowLists(s: Surface, mxSelect: int)
    ensures var chain := Build(s);
      (|chain| > 1 && !IsMulti(chain[|chain|-1].flags) && 0 < mxSelect < |chain|)
      <==> s.Compound? && 0 < mxSelect < Terms(s)
  {
    FlagsOfBuild(s);
    TermsOfBuild(s);
  }

  /** How many terms a source text has at the top level; a multi-row VALUES on the right counts as one. */
  function Terms(s: Surface): (n: nat)
    ensures n >= 1
  {
    match s
    case One(Query(_, _)) => 1
    case One(Values(_, more)) => 1 + |more|
    case Compound(left, _, _) => Terms(left) + 1
  }

  lemma {:induction false} TermsOfBuild(s: Surface)
    ensures |Build(s)| == Terms(s)
  {
    if s.Compound? {
      TermsOfBuild(s.left);
    }
  }
}
