/** What the code generated for a compound SELECT does: rows go to the result, into a temporary table or out of one.

    A table keeps each row once.  The terms before a UNION or EXCEPT fill the same table as the term itself, and a whole
    chain of them shares one.  Rows come in any order: ORDER BY, which is coded in another way, and LIMIT are not part
    of this.
 */
module CompoundCode {
  import opened SelectChain

  /** SRT_Output and the like, SRT_Union and SRT_Except. */
  datatype Dest = Output | UnionInto | ExceptFrom

  function Elements(rows: multiset<Row>): set<Row> {
    set r | r in rows
  }

  /** What a table holds once some rows have gone into it or out of it. */
  function Stored(dest: Dest, tab: set<Row>, rows: multiset<Row>): set<Row> {
    match dest
    case Output => tab
    case UnionInto => tab + Elements(rows)
    case ExceptFrom => tab - Elements(rows)
  }

  function Sent(dest: Dest, out: multiset<Row>, rows: multiset<Row>): multiset<Row> {
    if dest == Output then out + rows else out
  }

  /** Some rows and then more are the same as all of them. */
  lemma InTwoParts(dest: Dest, out: multiset<Row>, tab: set<Row>, rows: multiset<Row>, more: multiset<Row>)
    ensures Stored(dest, Stored(dest, tab, rows), more) == Stored(dest, tab, rows + more)
    ensures Sent(dest, Sent(dest, out, rows), more) == Sent(dest, out, rows + more)
  {
  }

  lemma {:induction false} OneRow(dest: Dest, out: multiset<Row>, tab: set<Row>, row: Row)
    ensures Stored(dest, tab, multiset{row})
            == match dest case Output => tab case UnionInto => tab + {row} case ExceptFrom => tab - {row}
    ensures Sent(dest, out, multiset{row}) == if dest == Output then out + multiset{row} else out
    ensures Stored(dest, tab, multiset{}) == tab && Sent(dest, out, multiset{}) == out
  {
    assert Elements(multiset{row}) == {row} && Elements(multiset{}) == {};
  }

  /** The rows of one SELECT, one after another. */
  method Deliver(rows: multiset<Row>, dest: Dest, out: multiset<Row>, tab: set<Row>)
    returns (out': multiset<Row>, tab': set<Row>)
    ensures out' == Sent(dest, out, rows) && tab' == Stored(dest, tab, rows)
  {
    hide Stored, Sent;
    out', tab' := out, tab;
    var rest := rows;
    OneRow(dest, out, tab, []);
    assert rows - rest == multiset{};
    while rest != multiset{}
      invariant rest <= rows && out' == Sent(dest, out, rows - rest) && tab' == Stored(dest, tab, rows - rest)
      decreases |rest|
    {
      var row :| row in rest;
      OneRow(dest, out', tab', row);
      InTwoParts(dest, out, tab, rows - rest, multiset{row});
      match dest {
        case Output => out' := out' + multiset{row};
        case UnionInto => tab' := tab' + {row};
        case ExceptFrom => tab' := tab' - {row};
      }
      assert rows - (rest - multiset{row}) == (rows - rest) + multiset{row};
      rest := rest - multiset{row};
    }
    assert rows - multiset{} == rows;
  }

  /** From the first row of a table to the last; with a second table, only the rows that it has too. */
  method Scan(tab: set<Row>, also: set<Row>) returns (rows: multiset<Row>)
    ensures rows == multiset(tab * also)
  {
    rows := multiset{};
    var rest := tab;
    while rest != {}
      invariant rest <= tab && rows == multiset((tab - rest) * also)
      decreases |rest|
    {
      var row :| row in rest;
      if row in also {
        assert (tab - (rest - {row})) * also == (tab - rest) * also + {row};
        rows := rows + multiset{row};
      } else {
        assert (tab - (rest - {row})) * also == (tab - rest) * also;
      }
      rest := rest - {row};
    }
    assert (tab - {}) * also == tab * also;
  }

  /** A term on its own, with no terms before it. */
  method SelectTerm(db: nat -> multiset<Row>, term: Term, dest: Dest, out: multiset<Row>, tab: set<Row>)
    returns (out': multiset<Row>, tab': set<Row>)
    ensures out' == Sent(dest, out, TermResult(db, term)) && tab' == Stored(dest, tab, TermResult(db, term))
    decreases term, 0
  {
    hide Stored;
    var rows: multiset<Row> := multiset{};
    match term.core {
      case RowOf(row) => rows := multiset{row};
      case QueryOf(id) => rows := db(id);
      case SubqueryOf(terms) =>
        if terms != [] {
          var given, none := MultiSelect(db, terms, Output, multiset{}, {});
          rows := given;
        }
    }
    assert rows == TermResult(db, term);
    out', tab' := Deliver(rows, dest, out, tab);
  }

  /** A chain of terms gives the rows that it means.  More than one term is coded for the result, or for a table that is
      still empty. */
  method MultiSelect(db: nat -> multiset<Row>, chain: seq<Term>, dest: Dest, out: multiset<Row>, tab: set<Row>)
    returns (out': multiset<Row>, tab': set<Row>)
    requires chain != [] && (|chain| > 1 ==> dest == Output || (dest == UnionInto && tab == {}))
    ensures out' == Sent(dest, out, Result(db, chain)) && tab' == Stored(dest, tab, Result(db, chain))
    decreases chain, 1
  {
    hide Stored, Sent, Combine;
    var n := |chain| - 1;
    if n == 0 {
      out', tab' := SelectTerm(db, chain[0], dest, out, tab);
    } else if IsMulti(chain[n].flags) {
      out', tab' := MultiSelectValues(db, chain, dest, out, tab);
    } else {
      match chain[n].op {
        case Union => out', tab' := ThroughTable(db, chain, dest, out, tab);
        case Except => out', tab' := ThroughTable(db, chain, dest, out, tab);
        case Intersect => out', tab' := ThroughTwoTables(db, chain, dest, out, tab);
        case _ => out', tab' := OneAfterOther(db, chain, dest, out, tab);
      }
    }
  }

  /** A multi-row VALUES clause: every term is coded alone. */
  method MultiSelectValues(db: nat -> multiset<Row>, chain: seq<Term>, dest: Dest, out: multiset<Row>, tab: set<Row>)
    returns (out': multiset<Row>, tab': set<Row>)
    ensures out' == Sent(dest, out, TermRows(db, chain)) && tab' == Stored(dest, tab, TermRows(db, chain))
    decreases chain, 0
  {
    hide Stored, Sent, TermResult;
    out', tab' := out, tab;
    OneRow(dest, out, tab, []);
    for i := 0 to |chain|
      invariant out' == Sent(dest, out, TermRows(db, chain[..i])) && tab' == Stored(dest, tab, TermRows(db, chain[..i]))
    {
      ghost var before, row := TermRows(db, chain[..i]), TermResult(db, chain[i]);
      out', tab' := SelectTerm(db, chain[i], dest, out', tab');
      assert chain[..i+1][..i] == chain[..i];
      assert TermRows(db, chain[..i+1]) == before + row;
      InTwoParts(dest, out, tab, before, row);
    }
    assert chain[..|chain|] == chain;
  }

  /** UNION ALL: the terms before and then the term itself. */
  method OneAfterOther(db: nat -> multiset<Row>, chain: seq<Term>, dest: Dest, out: multiset<Row>, tab: set<Row>)
    returns (out': multiset<Row>, tab': set<Row>)
    requires |chain| > 1 && (chain[|chain|-1].op == All || chain[|chain|-1].op == Plain)
    requires dest == Output || (dest == UnionInto && tab == {})
    ensures var n := |chain| - 1;
      var rows := Combine(chain[n].op, Result(db, chain[..n]), TermResult(db, chain[n]));
      out' == Sent(dest, out, rows) && tab' == Stored(dest, tab, rows)
    decreases chain, 0
  {
    hide Stored, Sent, Result, TermResult;
    var n := |chain| - 1;
    out', tab' := MultiSelect(db, chain[..n], dest, out, tab);
    out', tab' := SelectTerm(db, chain[n], dest, out', tab');
    InTwoParts(dest, out, tab, Result(db, chain[..n]), TermResult(db, chain[n]));
  }

  lemma {:induction false} UnionTable(op: Op, left: multiset<Row>, right: multiset<Row>)
    requires op == Union || op == Except
    ensures var tab := Stored(if op == Except then ExceptFrom else UnionInto, Stored(UnionInto, {}, left), right);
      tab == Stored(UnionInto, {}, Combine(op, left, right)) && multiset(tab) == Combine(op, left, right)
  {
    var tab := Stored(if op == Except then ExceptFrom else UnionInto, Stored(UnionInto, {}, left), right);
    if op == Except {
      assert tab == set r | r in left && r !in right;
    } else {
      assert tab == set r | r in left + right;
    }
  }

  lemma {:induction false} IntersectTables(left: multiset<Row>, right: multiset<Row>)
    ensures multiset(Stored(UnionInto, {}, left) * Stored(UnionInto, {}, right)) == Combine(Intersect, left, right)
  {
    assert Stored(UnionInto, {}, left) * Stored(UnionInto, {}, right) == set r | r in left && r in right;
  }

  /** UNION and EXCEPT: the terms before go into a table, the term itself into it or out of it, and what the table holds
      then is the result.  If the rows are to go into a table anyway, it is that one. */
  method ThroughTable(db: nat -> multiset<Row>, chain: seq<Term>, dest: Dest, out: multiset<Row>, tab: set<Row>)
    returns (out': multiset<Row>, tab': set<Row>)
    requires |chain| > 1 && (chain[|chain|-1].op == Union || chain[|chain|-1].op == Except)
    requires dest == Output || (dest == UnionInto && tab == {})
    ensures var n := |chain| - 1;
      var rows := Combine(chain[n].op, Result(db, chain[..n]), TermResult(db, chain[n]));
      out' == Sent(dest, out, rows) && tab' == Stored(dest, tab, rows)
    decreases chain, 0
  {
    hide Stored, Result, TermResult, Combine;
    var n := |chain| - 1;
    var unionTab: set<Row> := if dest == UnionInto then tab else {};
    var none: multiset<Row>;
    none, unionTab := MultiSelect(db, chain[..n], UnionInto, multiset{}, unionTab);
    none, unionTab := SelectTerm(db, chain[n], if chain[n].op == Except then ExceptFrom else UnionInto, none, unionTab);
    UnionTable(chain[n].op, Result(db, chain[..n]), TermResult(db, chain[n]));
    if dest == UnionInto {
      out', tab' := out, unionTab;
    } else {
      var rows := Scan(unionTab, unionTab);
      assert unionTab * unionTab == unionTab;
      out', tab' := Deliver(rows, dest, out, tab);
    }
  }

  /** INTERSECT: a table for the terms before, another for the term itself, and the rows that are in both. */
  method ThroughTwoTables(db: nat -> multiset<Row>, chain: seq<Term>, dest: Dest, out: multiset<Row>, tab: set<Row>)
    returns (out': multiset<Row>, tab': set<Row>)
    requires |chain| > 1
    ensures var n := |chain| - 1;
      var rows := Combine(Intersect, Result(db, chain[..n]), TermResult(db, chain[n]));
      out' == Sent(dest, out, rows) && tab' == Stored(dest, tab, rows)
    decreases chain, 0
  {
    hide Stored, Result, TermResult, Combine;
    var n := |chain| - 1;
    var none: multiset<Row>;
    var tab1: set<Row>, tab2: set<Row> := {}, {};
    none, tab1 := MultiSelect(db, chain[..n], UnionInto, multiset{}, tab1);
    none, tab2 := SelectTerm(db, chain[n], UnionInto, none, tab2);
    IntersectTables(Result(db, chain[..n]), TermResult(db, chain[n]));
    var rows := Scan(tab1, tab2);
    out', tab' := Deliver(rows, dest, out, tab);
  }

  /** From the text to the rows: the chain built for it, coded for the result. */
  method RowsOfText(db: nat -> multiset<Row>, s: Surface) returns (rows: multiset<Row>)
    ensures rows == Meaning(db, s)
  {
    hide Result, Meaning, Build;
    BuildKeepsMeaning(db, s);
    var none: set<Row>;
    rows, none := MultiSelect(db, Build(s), Output, multiset{}, {});
  }
}
