/** In a grammar where no non-terminal derives itself, a tree with a short yield is small.

    The driver may reduce many times before it shifts; each reduction adds one node to the forest on its
    stack and leaves the yield alone, so this bound is what makes every call of the driver terminate.
 */
module ForestBound {
  import opened LemonTables
  import opened Grammar

  ghost predicate NoSelfDerivation(t: Tables) {
    forall r, n: nat :: 0 <= r < |t.rules| && n > 0 ==> !DerivesIn(t, [t.rules[r].lhs], [t.rules[r].lhs], n)
  }

  /** u is tree itself or somewhere inside it. */
  ghost predicate Within(u: Tree, tree: Tree) {
    u == tree || (tree.Node? && exists i :: 0 <= i < |tree.kids| && Within(u, tree.kids[i]))
  }

  lemma {:induction false} WithinShorter(u: Tree, tree: Tree)
    requires Within(u, tree)
    ensures |Yield(u)| <= |Yield(tree)|
  {
    if u != tree {
      var i :| 0 <= i < |tree.kids| && Within(u, tree.kids[i]);
      WithinShorter(u, tree.kids[i]);
      YieldPart(tree.kids, i);
    }
  }

  lemma {:induction false} WithinConforms(t: Tables, u: Tree, tree: Tree)
    requires Within(u, tree) && Conforms(t, tree)
    ensures Conforms(t, u)
  {
    if u != tree {
      var i :| 0 <= i < |tree.kids| && Within(u, tree.kids[i]);
      WithinConforms(t, u, tree.kids[i]);
    }
  }

  /** If a part of a tree has the whole yield, the root derives the root of the part alone. */
  lemma {:induction false} SameYieldDerives(t: Tables, u: Tree, tree: Tree) returns (n: nat)
    requires Conforms(t, tree) && Within(u, tree) && |Yield(u)| == |Yield(tree)|
    ensures DerivesIn(t, [Root(t, tree)], [Root(t, u)], n)
    ensures u != tree ==> n > 0
    decreases tree
  {
    if u == tree {
      n := 0;
    } else {
      var i: nat :| i < |tree.kids| && Within(u, tree.kids[i]);
      WithinShorter(u, tree.kids[i]);
      YieldPart(tree.kids, i);
      var k := SameYieldDerives(t, u, tree.kids[i]);
      n := WholeKidDerives(t, tree, i, Root(t, u));
    }
  }

  lemma {:induction false} WholeKidDerives(t: Tables, tree: Tree, i: nat, x: nat) returns (n: nat)
    requires Conforms(t, tree) && tree.Node? && i < |tree.kids|
    requires Yields(tree.kids[..i]) == [] && Yields(tree.kids[i+1..]) == []
    requires Derives(t, [Root(t, tree.kids[i])], [x])
    ensures n > 0 && DerivesIn(t, [Root(t, tree)], [x], n)
  {
    hide DerivesIn, Yields;
    OnlyKidDerives(t, tree.kids, i, x);
    var m := RuleDerivesRoots(t, tree.rule, tree.kids);
    var l: nat :| DerivesIn(t, Roots(t, tree.kids), [x], l);
    DerivesInTransitive(t, [Root(t, tree)], Roots(t, tree.kids), [x], m, l);
    n := m + l;
  }

  /** All trees but one have an empty yield: together they derive whatever that one derives. */
  lemma {:induction false} OnlyKidDerives(t: Tables, kids: seq<Tree>, i: nat, x: nat)
    requires i < |kids| && forall j :: 0 <= j < |kids| ==> Conforms(t, kids[j])
    requires Yields(kids[..i]) == [] && Yields(kids[i+1..]) == []
    requires Derives(t, [Root(t, kids[i])], [x])
    ensures Derives(t, Roots(t, kids), [x])
  {
    ForestDerives(t, kids[..i]);
    ForestDerives(t, kids[i+1..]);
    assert Codes([]) == [];
    RootsSplit(t, kids, i);
    EraseSides(t, Roots(t, kids[..i]), [Root(t, kids[i])], Roots(t, kids[i+1..]), [x]);
  }

  lemma RootsSplit(t: Tables, trees: seq<Tree>, i: nat)
    requires i < |trees|
    ensures Roots(t, trees) == Roots(t, trees[..i]) + [Root(t, trees[i])] + Roots(t, trees[i+1..])
  {
  }

  lemma {:induction false} EraseSides(t: Tables, p: seq<nat>, a: seq<nat>, q: seq<nat>, b: seq<nat>)
    requires Derives(t, p, []) && Derives(t, a, b) && Derives(t, q, [])
    ensures Derives(t, p + a + q, b)
  {
    var k: nat :| DerivesIn(t, p, [], k);
    var l: nat :| DerivesIn(t, q, [], l);
    DerivesInBefore(t, p, [], a + q, k);
    DerivesInAfter(t, a, q, [], l);
    assert p + (a + q) == p + a + q && [] + (a + q) == a + q && a + [] == a;
    DerivesTransitive(t, p + a + q, a + q, a);
    DerivesTransitive(t, p + a + q, a, b);
  }

  function LongestRhs(rules: seq<Rule>): (m: nat)
    ensures forall i :: 0 <= i < |rules| ==> |rules[i].rhs| <= m
  {
    if rules == [] then 0
    else
      var m := LongestRhs(rules[..|rules|-1]);
      var l := |rules[|rules|-1].rhs|;
      if m < l then l else m
  }

  function Nonterminals(t: Tables): set<nat> {
    set r | 0 <= r < |t.rules| :: t.rules[r].lhs
  }

  /** Most rule applications in a tree with n tokens below, when on every path only `avail` of the `all`
      non-terminals may still occur before the yield gets shorter.  Each node has at most m children. */
  function NodeBound(m: nat, all: nat, n: nat, avail: nat): nat
    decreases n, avail, 0
  {
    if avail == 0 then 0 else 1 + m * KidBound(m, all, n, avail - 1)
  }

  function KidBound(m: nat, all: nat, n: nat, avail: nat): nat
    decreases n, avail, 1
  {
    (if n == 0 then 0 else NodeBound(m, all, n - 1, all)) + NodeBound(m, all, n, avail)
  }

  lemma MulMonotone(m: nat, a: nat, b: nat)
    requires a <= b
    ensures m * a <= m * b
  {
  }

  lemma {:induction false} NodeBoundMonotone(m: nat, all: nat, n: nat, n': nat, avail: nat, avail': nat)
    requires n <= n' && avail <= avail' <= all
    ensures NodeBound(m, all, n, avail) <= NodeBound(m, all, n', avail')
    decreases n', avail'
  {
    if avail > 0 {
      NodeBoundMonotone(m, all, n, n', avail - 1, avail' - 1);
      if n > 0 {
        NodeBoundMonotone(m, all, n - 1, n' - 1, all, all);
      }
      MulMonotone(m, KidBound(m, all, n, avail - 1), KidBound(m, all, n', avail' - 1));
    }
  }

  /** A symbol on a path of nodes that all have the whole yield does not occur on it again. */
  ghost predicate PathSymbols(t: Tables, tree: Tree, avail: set<nat>) {
    forall u :: Within(u, tree) && u.Node? && |Yield(u)| == |Yield(tree)| ==> Root(t, u) in avail
  }

  lemma {:induction false} SizeWithin(t: Tables, tree: Tree, avail: set<nat>)
    requires NoSelfDerivation(t) && Conforms(t, tree)
    requires avail <= Nonterminals(t) && PathSymbols(t, tree, avail)
    ensures Size(tree) <= NodeBound(LongestRhs(t.rules), |Nonterminals(t)|, |Yield(tree)|, |avail|)
    decreases tree, 1
  {
    if tree.Node? {
      var m, x := LongestRhs(t.rules), Root(t, tree);
      assert Within(tree, tree) && x in avail;
      var rest := avail - {x};
      assert rest + {x} == avail;
      var perKid := KidBound(m, |Nonterminals(t)|, |Yield(tree)|, |rest|);
      forall i | 0 <= i < |tree.kids| ensures Size(tree.kids[i]) <= perKid {
        KidSize(t, tree, i, rest);
      }
      SizesBelow(tree.kids, m, perKid);
    }
  }

  lemma {:induction false} KidSize(t: Tables, tree: Tree, i: nat, rest: set<nat>)
    requires NoSelfDerivation(t) && Conforms(t, tree) && tree.Node? && i < |tree.kids|
    requires rest <= Nonterminals(t) && PathSymbols(t, tree, rest + {Root(t, tree)})
    ensures Size(tree.kids[i]) <= KidBound(LongestRhs(t.rules), |Nonterminals(t)|, |Yield(tree)|, |rest|)
    decreases tree, 0
  {
    var m, all, n := LongestRhs(t.rules), Nonterminals(t), |Yield(tree)|;
    var kid := tree.kids[i];
    assert Within(kid, kid);
    WithinShorter(kid, tree);
    if |Yield(kid)| < n {
      forall u | Within(u, kid) && u.Node? ensures Root(t, u) in all {
        WithinConforms(t, u, kid);
      }
      SizeWithin(t, kid, all);
      NodeBoundMonotone(m, |all|, |Yield(kid)|, n - 1, |all|, |all|);
    } else {
      forall u | Within(u, kid) && u.Node? && |Yield(u)| == |Yield(kid)| ensures Root(t, u) in rest {
        assert Within(u, tree);
        if Root(t, u) == Root(t, tree) {
          SmallerWithin(u, kid);
          SizePart(tree.kids, i);
          var k := SameYieldDerives(t, u, tree);
          assert false;
        }
      }
      SizeWithin(t, kid, rest);
    }
  }

  lemma {:induction false} SmallerWithin(u: Tree, tree: Tree)
    requires Within(u, tree)
    ensures Size(u) <= Size(tree)
  {
    if u != tree {
      var i: nat :| i < |tree.kids| && Within(u, tree.kids[i]);
      SmallerWithin(u, tree.kids[i]);
      SizePart(tree.kids, i);
    }
  }

  lemma {:induction false} SizePart(trees: seq<Tree>, i: nat)
    requires i < |trees|
    ensures Size(trees[i]) <= Sizes(trees)
  {
    if i < |trees| - 1 {
      SizePart(trees[..|trees|-1], i);
    }
  }

  lemma {:induction false} SizesBelow(trees: seq<Tree>, m: nat, bound: nat)
    requires |trees| <= m && forall i :: 0 <= i < |trees| ==> Size(trees[i]) <= bound
    ensures Sizes(trees) <= m * bound
  {
    if trees != [] {
      SizesBelow(trees[..|trees|-1], m - 1, bound);
      assert m * bound == (m - 1) * bound + bound;
    }
  }

  function MaxNodes(t: Tables, n: nat): nat {
    NodeBound(LongestRhs(t.rules), |Nonterminals(t)|, n, |Nonterminals(t)|)
  }

  /** The forest on a stack: its nodes are bounded by how many trees and how many tokens it has. */
  lemma {:induction false} ForestSize(t: Tables, trees: seq<Tree>, m: nat)
    requires NoSelfDerivation(t) && |trees| <= m
    requires forall i :: 0 <= i < |trees| ==> Conforms(t, trees[i])
    ensures Sizes(trees) <= m * MaxNodes(t, |Yields(trees)|)
  {
    var all := Nonterminals(t);
    forall i | 0 <= i < |trees| ensures Size(trees[i]) <= MaxNodes(t, |Yields(trees)|) {
      forall u | Within(u, trees[i]) && u.Node? ensures Root(t, u) in all {
        WithinConforms(t, u, trees[i]);
      }
      SizeWithin(t, trees[i], all);
      YieldPart(trees, i);
      NodeBoundMonotone(LongestRhs(t.rules), |all|, |Yield(trees[i])|, |Yields(trees)|, |all|, |all|);
    }
    SizesBelow(trees, m, MaxNodes(t, |Yields(trees)|));
  }
}
