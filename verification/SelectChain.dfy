/** What a chain of SELECT terms means, and the actions of the grammar that build one.

    A compound SELECT is kept as a list of terms, each with the operator that joins it to everything before
    it.  Here a chain is the sequence of its terms from the first to the head; the objects that hold it are
    in SelectObjects.
 */
module SelectChain {
  const SF_Distinct: bv32 := 0x1
  const SF_All: bv32 := 0x2
  const SF_Compound: bv32 := 0x100
  const SF_Values: bv32 := 0x200
  const SF_MultiValue: bv32 := 0x400

  /** The word of flags of a SELECT. */
  datatype Flags = Flags(bits: bv32)

  function With(f: Flags, mask: bv32): Flags {
    Flags(f.bits | mask)
  }

  function Without(f: Flags, mask: bv32): Flags {
    Flags(f.bits & !mask)
  }

  /** Every flag of the mask is set, and the other bits are as they were. */
  lemma WithBits(f: Flags, mask: bv32)
    ensures With(f, mask).bits & mask == mask && With(f, mask).bits & !mask == f.bits & !mask
  {
  }

  /** Every flag of the mask is cleared, and the other bits are as they were. */
  lemma WithoutBits(f: Flags, mask: bv32)
    ensures Without(f, mask).bits & mask == 0 && Without(f, mask).bits & !mask == f.bits & !mask
  {
  }

  datatype Op = Plain | All | Union | Except | Intersect

  type Row = seq<int>

  /** One term: a row of a VALUES clause, a SELECT whose result is given, or SELECT * FROM (subquery). */
  datatype Core = RowOf(row: Row) | QueryOf(id: nat) | SubqueryOf(terms: seq<Term>)

  datatype Term = Term(op: Op, flags: Flags, core: Core)

  predicate IsMulti(flags: Flags) {
    flags.bits & SF_MultiValue != 0
  }

  predicate IsValues(flags: Flags) {
    flags.bits & SF_Values != 0
  }

  // ----- Meaning of the operators (section 7.10 of ISO/IEC 9075:1992) -----

  function Distinct(rows: multiset<Row>): multiset<Row> {
    multiset(set r | r in rows)
  }

  function Combine(op: Op, left: multiset<Row>, right: multiset<Row>): multiset<Row> {
    match op
    case Union => Distinct(left + right)
    case Except => multiset(set r | r in left && r !in right)
    case Intersect => multiset(set r | r in left && r in right)
    case _ => left + right
  }

  /** How often a row is in a compound, told from how often it is in the operands: UNION ALL adds, the others give it
      once or not at all, EXCEPT only without and INTERSECT only with the right operand. */
  lemma {:induction false} CombineCounts(op: Op, left: multiset<Row>, right: multiset<Row>, row: Row)
    ensures op == All ==> Combine(op, left, right)[row] == left[row] + right[row]
    ensures op == Union ==> Combine(op, left, right)[row] == if left[row] > 0 || right[row] > 0 then 1 else 0
    ensures op == Except ==> Combine(op, left, right)[row] == if left[row] > 0 && right[row] == 0 then 1 else 0
    ensures op == Intersect ==> Combine(op, left, right)[row] == if left[row] > 0 && right[row] > 0 then 1 else 0
  {
    assert row in left <==> left[row] > 0;
    assert row in right <==> right[row] > 0;
    if op == Union {
      DistinctCounts(left + right, row);
    }
  }

  lemma {:induction false} DistinctCounts(rows: multiset<Row>, row: Row)
    ensures Distinct(rows)[row] == if rows[row] > 0 then 1 else 0
  {
    assert row in rows <==> rows[row] > 0;
  }

  /** What EXCEPT takes from the left operand is what INTERSECT keeps. */
  lemma {:induction false} ExceptAndIntersect(left: multiset<Row>, right: multiset<Row>)
    ensures Combine(All, Combine(Except, left, right), Combine(Intersect, left, right)) == Distinct(left)
  {
    var both := Combine(All, Combine(Except, left, right), Combine(Intersect, left, right));
    forall row: Row ensures both[row] == Distinct(left)[row] {
      CombineCounts(All, Combine(Except, left, right), Combine(Intersect, left, right), row);
      CombineCounts(Except, left, right, row);
      CombineCounts(Intersect, left, right, row);
      DistinctCounts(left, row);
    }
  }

  // ----- Meaning of the source text -----

  datatype Quantifier = Unstated | DistinctRows | AllRows

  datatype OneSelect = Query(id: nat, quantifier: Quantifier) | Values(first: Row, more: seq<Row>)

  datatype Surface = One(term: OneSelect) | Compound(left: Surface, op: Op, right: OneSelect)

  /** The operators group from the left; the rows of a VALUES clause all count. */
  function Meaning(db: nat -> multiset<Row>, s: Surface): multiset<Row> {
    match s
    case One(term) => MeaningOne(db, term)
    case Compound(left, op, right) => Combine(op, Meaning(db, left), MeaningOne(db, right))
  }

  function MeaningOne(db: nat -> multiset<Row>, o: OneSelect): multiset<Row> {
    match o
    case Query(id, _) => db(id)
    case Values(first, more) => RowBag([first] + more)
  }

  function RowBag(rows: seq<Row>): multiset<Row> {
    if rows == [] then multiset{} else RowBag(rows[..|rows|-1]) + multiset{rows[|rows|-1]}
  }

  lemma {:induction false} RowBagIsMultiset(rows: seq<Row>)
    ensures RowBag(rows) == multiset(rows)
  {
    if rows != [] {
      RowBagIsMultiset(rows[..|rows|-1]);
      assert rows == rows[..|rows|-1] + [rows[|rows|-1]];
    }
  }

  // ----- Meaning of a chain, as code generation reads it -----

  /** The head decides: flagged as a multi-row VALUES, every term is taken as a row of it; otherwise its
      operator joins it to the meaning of the chain before it. */
  function Result(db: nat -> multiset<Row>, chain: seq<Term>): multiset<Row>
    decreases chain, 1
  {
    if chain == [] then multiset{}
    else
      var n := |chain| - 1;
      if n == 0 then TermResult(db, chain[0])
      else if IsMulti(chain[n].flags) then TermRows(db, chain)
      else Combine(chain[n].op, Result(db, chain[..n]), TermResult(db, chain[n]))
  }

  /** What a term produces on its own. */
  function TermResult(db: nat -> multiset<Row>, term: Term): multiset<Row>
    decreases term, 0
  {
    match term
    case Term(_, _, RowOf(row)) => multiset{row}
    case Term(_, _, QueryOf(id)) => db(id)
    case Term(_, _, SubqueryOf(terms)) => Result(db, terms)
  }

  function TermRows(db: nat -> multiset<Row>, chain: seq<Term>): multiset<Row>
    decreases chain, 0
  {
    if chain == [] then multiset{}
    else TermRows(db, chain[..|chain|-1]) + TermResult(db, chain[|chain|-1])
  }

  // ----- The actions of the grammar -----

  function Unflagged(t: Term): Term {
    t.(flags := Without(t.flags, SF_MultiValue))
  }

  function HeadUnflagged(chain: seq<Term>): seq<Term> {
    if chain == [] then [] else chain[..|chain|-1] + [Unflagged(chain[|chain|-1])]
  }

  function Marked(chain: seq<Term>): seq<Term> {
    seq(|chain|, i requires 0 <= i < |chain| => chain[i].(flags := With(chain[i].flags, SF_Compound)))
  }

  /** Marks every term as part of a compound, if there is more than one. */
  function Linked(chain: seq<Term>): seq<Term> {
    if |chain| <= 1 then chain else Marked(chain)
  }

  /** values ::= VALUES LP nexprlist RP */
  function FirstRow(row: Row): seq<Term> {
    [Term(Plain, Flags(SF_Values), RowOf(row))]
  }

  /** values ::= values COMMA LP exprlist RP */
  function NextRow(chain: seq<Term>, row: Row): seq<Term> {
    HeadUnflagged(chain) + [Term(All, Flags(SF_Values | SF_MultiValue), RowOf(row))]
  }

  /** The right-hand side as one term: more than one becomes a subquery in a FROM clause. */
  function AsOneTerm(chain: seq<Term>): Term
    requires chain != []
  {
    if |chain| == 1 then chain[0] else Term(Plain, Flags(0), SubqueryOf(Linked(chain)))
  }

  /** selectnowith ::= selectnowith multiselect_op oneselect */
  function Joined(left: seq<Term>, op: Op, right: seq<Term>): seq<Term>
    requires right != []
  {
    HeadUnflagged(left) + [Unflagged(AsOneTerm(right)).(op := op)]
  }

  function BuildRows(first: Row, more: seq<Row>): (chain: seq<Term>)
    ensures |chain| == |more| + 1
  {
    if more == [] then FirstRow(first)
    else NextRow(BuildRows(first, more[..|more|-1]), more[|more|-1])
  }

  function QuantifierFlag(q: Quantifier): Flags {
    match q
    case Unstated => Flags(0)
    case DistinctRows => Flags(SF_Distinct)
    case AllRows => Flags(SF_All)
  }

  /** The flags tell the three apart. */
  lemma QuantifierTold(q: Quantifier)
    ensures QuantifierFlag(q).bits & SF_Distinct != 0 <==> q == DistinctRows
    ensures QuantifierFlag(q).bits & SF_All != 0 <==> q == AllRows
  {
  }

  function BuildOne(o: OneSelect): (chain: seq<Term>)
    ensures chain != []
  {
    match o
    case Query(id, q) => [Term(Plain, QuantifierFlag(q), QueryOf(id))]
    case Values(first, more) => BuildRows(first, more)
  }

  /** The chain that the actions build for a source text. */
  function Build(s: Surface): (chain: seq<Term>)
    ensures chain != []
  {
    match s
    case One(term) => BuildOne(term)
    case Compound(left, op, right) => Joined(Build(left), op, BuildOne(right))
  }

  // ----- The flags -----

  /** The chain is a VALUES clause with one row per term. */
  predicate IsRowList(chain: seq<Term>) {
    forall i :: 0 <= i < |chain| ==>
      chain[i].core.RowOf? && IsValues(chain[i].flags) && chain[i].op == if i == 0 then Plain else All
  }

  /** SF_MultiValue is on the head and nowhere else, and there exactly for a VALUES of two rows or more. */
  predicate FlagsRight(chain: seq<Term>) {
    && (forall i :: 0 <= i < |chain| - 1 ==> !IsMulti(chain[i].flags))
    && (chain != [] && IsMulti(chain[|chain|-1].flags) ==> |chain| >= 2 && IsRowList(chain))
  }

  lemma FlagCleared(f: Flags)
    ensures !IsMulti(Without(f, SF_MultiValue)) && IsValues(Without(f, SF_MultiValue)) == IsValues(f)
  {
  }

  lemma FlagAdded(f: Flags)
    ensures IsMulti(With(f, SF_Compound)) == IsMulti(f) && IsValues(With(f, SF_Compound)) == IsValues(f)
  {
  }

  lemma FlagsOfNew(q: Quantifier)
    ensures !IsMulti(Flags(0)) && !IsMulti(QuantifierFlag(q)) && !IsValues(Flags(0)) && !IsValues(QuantifierFlag(q))
    ensures !IsMulti(Flags(SF_Values)) && IsMulti(Flags(SF_Values | SF_MultiValue))
    ensures IsValues(Flags(SF_Values)) && IsValues(Flags(SF_Values | SF_MultiValue))
  {
  }

  lemma {:induction false} HeadUnflaggedKeeps(chain: seq<Term>)
    requires FlagsRight(chain) && chain != []
    ensures forall i :: 0 <= i < |chain| ==> !IsMulti(HeadUnflagged(chain)[i].flags)
    ensures IsRowList(chain) ==> IsRowList(HeadUnflagged(chain))
  {
    var n, other := |chain| - 1, HeadUnflagged(chain);
    FlagCleared(chain[n].flags);
    assert IsMulti(other[n].flags) == false;
    forall i | 0 <= i < n ensures other[i] == chain[i] && !IsMulti(other[i].flags) {
      assert !IsMulti(chain[i].flags);
    }
  }

  lemma {:induction false} RowsFlags(first: Row, more: seq<Row>)
    ensures var chain := BuildRows(first, more);
      && IsRowList(chain) && FlagsRight(chain)
      && (IsMulti(chain[|chain|-1].flags) <==> more != [])
  {
    FlagsOfNew(Unstated);
    if more != [] {
      var front := BuildRows(first, more[..|more|-1]);
      RowsFlags(first, more[..|more|-1]);
      HeadUnflaggedKeeps(front);
    }
  }

  lemma {:induction false} OneFlags(o: OneSelect)
    ensures var chain := BuildOne(o);
      FlagsRight(chain) && (IsMulti(chain[|chain|-1].flags) <==> o.Values? && o.more != [])
  {
    match o {
      case Query(_, q) => FlagsOfNew(q);
      case Values(first, more) => RowsFlags(first, more);
    }
  }

  lemma {:induction false} JoinedFlags(left: seq<Term>, op: Op, right: seq<Term>)
    requires left != [] && right != [] && FlagsRight(left)
    ensures FlagsRight(Joined(left, op, right))
    ensures forall i :: 0 <= i < |Joined(left, op, right)| ==> !IsMulti(Joined(left, op, right)[i].flags)
  {
    HeadUnflaggedKeeps(left);
    FlagCleared(AsOneTerm(right).flags);
    var chain := Joined(left, op, right);
    forall i | 0 <= i < |chain| ensures !IsMulti(chain[i].flags) {
      if i < |left| { assert chain[i] == HeadUnflagged(left)[i]; }
    }
  }

  /** Over every source text: SF_MultiValue is never below the head, and it is on the head exactly when the
      whole text is one VALUES clause of two rows or more. */
  lemma {:induction false} FlagsOfBuild(s: Surface)
    ensures FlagsRight(Build(s))
    ensures IsMulti(Build(s)[|Build(s)|-1].flags) <==> s.One? && s.term.Values? && s.term.more != []
  {
    match s {
      case One(term) => OneFlags(term);
      case Compound(left, op, right) =>
        FlagsOfBuild(left);
        JoinedFlags(Build(left), op, BuildOne(right));
    }
  }

  /** SF_Values is on exactly the terms that are rows of a VALUES clause. */
  predicate ValuesRight(chain: seq<Term>) {
    forall i :: 0 <= i < |chain| ==> ValuesRightAt(chain, i)
  }

  predicate ValuesRightAt(chain: seq<Term>, i: nat)
    requires i < |chain|
  {
    IsValues(chain[i].flags) <==> chain[i].core.RowOf?
  }

  lemma {:induction false} ValuesUnflagged(chain: seq<Term>)
    requires ValuesRight(chain)
    ensures ValuesRight(HeadUnflagged(chain))
  {
    if chain != [] {
      var n := |chain| - 1;
      FlagCleared(chain[n].flags);
      assert ValuesRightAt(chain, n);
      forall i | 0 <= i < n ensures ValuesRightAt(HeadUnflagged(chain), i) {
        assert ValuesRightAt(chain, i);
      }
    }
  }

  lemma {:induction false} ValuesOfOne(o: OneSelect)
    ensures ValuesRight(BuildOne(o))
  {
    match o {
      case Query(_, q) => FlagsOfNew(q);
      case Values(first, more) => RowsFlags(first, more);
    }
  }

  lemma {:induction false} ValuesOfBuild(s: Surface)
    ensures ValuesRight(Build(s))
  {
    match s {
      case One(term) => ValuesOfOne(term);
      case Compound(left, op, right) =>
        var front, chain := HeadUnflagged(Build(left)), BuildOne(right);
        ValuesOfBuild(left);
        ValuesUnflagged(Build(left));
        ValuesOfOne(right);
        FlagsOfNew(Unstated);
        FlagCleared(AsOneTerm(chain).flags);
        assert ValuesRightAt(chain, 0);
        forall i | 0 <= i < |front| ensures ValuesRightAt(Build(s), i) {
          assert ValuesRightAt(front, i);
        }
    }
  }

  // ----- The chain means what the source text means -----

  lemma {:induction false} RowListResult(db: nat -> multiset<Row>, chain: seq<Term>)
    requires IsRowList(chain) && forall i :: 0 <= i < |chain| - 1 ==> !IsMulti(chain[i].flags)
    ensures Result(db, chain) == TermRows(db, chain)
  {
    if |chain| == 1 {
      assert TermRows(db, chain[..0]) == multiset{};
    } else if |chain| > 1 {
      RowListResult(db, chain[..|chain|-1]);
    }
  }

  lemma {:induction false} HeadUnflaggedResult(db: nat -> multiset<Row>, chain: seq<Term>)
    requires chain != [] && FlagsRight(chain)
    ensures Result(db, HeadUnflagged(chain)) == Result(db, chain)
  {
    var n, other := |chain| - 1, HeadUnflagged(chain);
    HeadUnflaggedKeeps(chain);
    assert other[..n] == chain[..n];
    if IsMulti(chain[n].flags) {
      RowListResult(db, other);
      RowListResult(db, chain);
    }
  }

  lemma SameCore(db: nat -> multiset<Row>, a: Term, b: Term)
    requires a.core == b.core
    ensures TermResult(db, a) == TermResult(db, b)
  {
  }

  lemma {:induction false} MarkedResult(db: nat -> multiset<Row>, chain: seq<Term>)
    ensures Result(db, Marked(chain)) == Result(db, chain)
    ensures TermRows(db, Marked(chain)) == TermRows(db, chain)
  {
    if chain != [] {
      var n := |chain| - 1;
      assert Marked(chain)[..n] == Marked(chain[..n]);
      MarkedResult(db, chain[..n]);
      SameCore(db, Marked(chain)[n], chain[n]);
      FlagAdded(chain[n].flags);
    }
  }

  /** One term stands for the whole right-hand side. */
  lemma {:induction false} AsOneTermResult(db: nat -> multiset<Row>, chain: seq<Term>)
    requires chain != []
    ensures TermResult(db, AsOneTerm(chain)) == Result(db, chain)
  {
    MarkedResult(db, chain);
  }

  lemma {:induction false} JoinedResult(db: nat -> multiset<Row>, left: seq<Term>, op: Op, right: seq<Term>)
    requires left != [] && right != [] && FlagsRight(left)
    ensures Result(db, Joined(left, op, right)) == Combine(op, Result(db, left), Result(db, right))
  {
    var chain := Joined(left, op, right);
    JoinedFlags(left, op, right);
    HeadUnflaggedResult(db, left);
    AsOneTermResult(db, right);
    assert chain[..|chain|-1] == HeadUnflagged(left);
  }

  lemma {:induction false} HeadUnflaggedRows(db: nat -> multiset<Row>, chain: seq<Term>)
    requires chain != []
    ensures TermRows(db, HeadUnflagged(chain)) == TermRows(db, chain)
  {
    assert HeadUnflagged(chain)[..|chain|-1] == chain[..|chain|-1];
  }

  lemma {:induction false} TermRowsPush(db: nat -> multiset<Row>, chain: seq<Term>, term: Term)
    ensures TermRows(db, chain + [term]) == TermRows(db, chain) + TermResult(db, term)
  {
    assert (chain + [term])[..|chain|] == chain;
  }

  lemma {:induction false} RowBagPush(rows: seq<Row>, row: Row)
    ensures RowBag(rows + [row]) == RowBag(rows) + multiset{row}
  {
    assert (rows + [row])[..|rows|] == rows;
  }

  lemma {:induction false} OneRowResult(db: nat -> multiset<Row>, first: Row)
    ensures TermRows(db, FirstRow(first)) == RowBag([first]) == multiset{first}
  {
    assert [first][..0] == [] && FirstRow(first)[..0] == [];
  }

  lemma {:induction false} RowsResult(db: nat -> multiset<Row>, first: Row, more: seq<Row>)
    ensures TermRows(db, BuildRows(first, more)) == RowBag([first] + more)
  {
    hide TermRows, RowBag;
    if more == [] {
      assert [first] + more == [first];
      OneRowResult(db, first);
    } else {
      var less, last := more[..|more|-1], more[|more|-1];
      var front := BuildRows(first, less);
      RowsResult(db, first, less);
      HeadUnflaggedRows(db, front);
      TermRowsPush(db, HeadUnflagged(front), Term(All, Flags(SF_Values | SF_MultiValue), RowOf(last)));
      RowBagPush([first] + less, last);
      assert [first] + more == ([first] + less) + [last];
    }
  }

  lemma {:induction false} OneResult(db: nat -> multiset<Row>, o: OneSelect)
    ensures Result(db, BuildOne(o)) == MeaningOne(db, o)
  {
    if o.Values? {
      RowsFlags(o.first, o.more);
      RowListResult(db, BuildOne(o));
      RowsResult(db, o.first, o.more);
    }
  }

  /** For every mix of operators and VALUES clauses, the chain evaluates to what the text says. */
  lemma {:induction false} BuildKeepsMeaning(db: nat -> multiset<Row>, s: Surface)
    ensures Result(db, Build(s)) == Meaning(db, s)
  {
    match s {
      case One(term) => OneResult(db, term);
      case Compound(left, op, right) =>
        BuildKeepsMeaning(db, left);
        FlagsOfBuild(left);
        OneResult(db, right);
        JoinedResult(db, Build(left), op, BuildOne(right));
    }
  }

  /** How often the chain built for a compound gives a row, told from how often its two parts do. */
  lemma {:induction false} BuildCounts(db: nat -> multiset<Row>, left: Surface, op: Op, right: OneSelect, row: Row)
    ensures var n, l, r := Result(db, Build(Compound(left, op, right)))[row],
                           Result(db, Build(left))[row], Result(db, BuildOne(right))[row];
      && (op == All ==> n == l + r)
      && (op == Union ==> n == if l > 0 || r > 0 then 1 else 0)
      && (op == Except ==> n == if l > 0 && r == 0 then 1 else 0)
      && (op == Intersect ==> n == if l > 0 && r > 0 then 1 else 0)
  {
    hide Result, Combine, Build, BuildOne;
    BuildKeepsMeaning(db, Compound(left, op, right));
    BuildKeepsMeaning(db, left);
    OneResult(db, right);
    CombineCounts(op, Meaning(db, left), MeaningOne(db, right), row);
  }

  // ----- Why a multi-row VALUES on the right is wrapped -----

  /** The action without the subquery: the right-hand side's head is joined directly. */
  function JoinedDirectly(left: seq<Term>, op: Op, right: seq<Term>): seq<Term>
    requires right != []
  {
    HeadUnflagged(left) + [Unflagged(right[|right|-1]).(op := op)]
  }

  /** Without it only the last row of the VALUES clause would count. */
  lemma {:induction false} JoinedDirectlyResult(db: nat -> multiset<Row>, left: seq<Term>, op: Op,
                                                first: Row, more: seq<Row>)
    requires left != [] && FlagsRight(left) && more != []
    ensures Result(db, JoinedDirectly(left, op, BuildRows(first, more)))
            == Combine(op, Result(db, left), multiset{more[|more|-1]})
  {
    var right := BuildRows(first, more);
    var chain := JoinedDirectly(left, op, right);
    HeadUnflaggedKeeps(left);
    HeadUnflaggedResult(db, left);
    FlagCleared(right[|right|-1].flags);
    assert chain[..|chain|-1] == HeadUnflagged(left);
  }

  // ----- Why a joined head loses its flag -----

  /** A flagged head makes every term a row, whatever the operators; without the flag EXCEPT takes the row away. */
  lemma {:induction false} FlagMustGo(db: nat -> multiset<Row>, row: Row)
    ensures var left, right := FirstRow(row), Term(Except, Flags(SF_Values | SF_MultiValue), RowOf(row));
      Result(db, left + [right]) == multiset{row, row} && Result(db, left + [Unflagged(right)]) == multiset{}
  {
    var left, right := FirstRow(row), Term(Except, Flags(SF_Values | SF_MultiValue), RowOf(row));
    FlagsOfNew(Unstated);
    FlagCleared(right.flags);
    TermRowsPush(db, left, right);
    assert (left + [right])[..1] == left && (left + [Unflagged(right)])[..1] == left;
    OneRowResult(db, row);
    CombineCounts(Except, multiset{row}, multiset{row}, row);
    assert Result(db, left + [Unflagged(right)]) == Combine(Except, multiset{row}, multiset{row});
  }
}
