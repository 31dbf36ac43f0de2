/** What a stack of parse trees means: trees, their yields, and derivation in the grammar. */
module Grammar {
  import opened LemonTables

  datatype Token = Token(code: nat, text: string)

  /** The semantic values of the parser, kept free: which rule was applied to which values.
      The value computed by any particular set of actions is a fold over such a tree. */
  datatype Tree = Leaf(token: Token) | Node(rule: nat, kids: seq<Tree>)

  function Root(t: Tables, tree: Tree): nat {
    match tree
    case Leaf(token) => token.code
    case Node(rule, _) => if rule < |t.rules| then t.rules[rule].lhs else YYNOCODE
  }

  function Yield(tree: Tree): seq<Token>
    decreases tree, 0
  {
    match tree
    case Leaf(token) => [token]
    case Node(_, kids) => Yields(kids)
  }

  function Yields(trees: seq<Tree>): seq<Token>
    decreases trees, 1
  {
    if trees == [] then [] else Yields(trees[..|trees|-1]) + Yield(trees[|trees|-1])
  }

  /** Number of rule applications in a tree. */
  function Size(tree: Tree): nat
    decreases tree, 0
  {
    match tree
    case Leaf(_) => 0
    case Node(_, kids) => 1 + Sizes(kids)
  }

  function Sizes(trees: seq<Tree>): nat
    decreases trees, 1
  {
    if trees == [] then 0 else Sizes(trees[..|trees|-1]) + Size(trees[|trees|-1])
  }

  function Codes(tokens: seq<Token>): seq<nat> {
    seq(|tokens|, i requires 0 <= i < |tokens| => tokens[i].code)
  }

  lemma CodesConcat(a: seq<Token>, b: seq<Token>)
    ensures Codes(a + b) == Codes(a) + Codes(b)
  {
  }

  function Roots(t: Tables, trees: seq<Tree>): seq<nat> {
    seq(|trees|, i requires 0 <= i < |trees| => Root(t, trees[i]))
  }

  lemma {:induction false} YieldsConcat(a: seq<Tree>, b: seq<Tree>)
    ensures Yields(a + b) == Yields(a) + Yields(b)
  {
    if b == [] {
      assert a + b == a;
    } else {
      YieldsConcat(a, b[..|b|-1]);
      assert (a + b)[..|a + b|-1] == a + b[..|b|-1];
    }
  }

  lemma {:induction false} YieldsPush(a: seq<Tree>, tree: Tree)
    ensures Yields(a + [tree]) == Yields(a) + Yield(tree)
  {
    assert (a + [tree])[..|a|] == a;
  }

  lemma {:induction false} SizesPush(a: seq<Tree>, tree: Tree)
    ensures Sizes(a + [tree]) == Sizes(a) + Size(tree)
  {
    assert (a + [tree])[..|a|] == a;
  }

  lemma {:induction false} SizesConcat(a: seq<Tree>, b: seq<Tree>)
    ensures Sizes(a + b) == Sizes(a) + Sizes(b)
  {
    if b == [] {
      assert a + b == a;
    } else {
      SizesConcat(a, b[..|b|-1]);
      assert (a + b)[..|a + b|-1] == a + b[..|b|-1];
    }
  }

  lemma {:induction false} YieldPart(trees: seq<Tree>, i: nat)
    requires i < |trees|
    ensures Yields(trees) == Yields(trees[..i]) + Yield(trees[i]) + Yields(trees[i+1..])
  {
    assert trees == trees[..i] + [trees[i]] + trees[i+1..];
    YieldsConcat(trees[..i] + [trees[i]], trees[i+1..]);
    YieldsConcat(trees[..i], [trees[i]]);
    assert [trees[i]][..0] == [];
  }

  // ----- Derivation, by rewriting of symbol strings -----

  /** A token also stands for its fallback token and, unless it is end of input, for the wildcard. */
  predicate TokenStandsFor(t: Tables, token: nat, x: nat) {
    || (x != 0 && Fallback(t, token) == x)
    || (x == YYWILDCARD && 0 < token < YYNTERMINAL)
  }

  /** One token stands for another exactly if, in a state whose row has an entry for the other alone, the lookup gives
      it that entry. */
  lemma {:induction false} StandsForExactly(t: Tables, rows: Rows, s: nat, token: nat, x: nat)
    requires WellFormed(t) && Placed(t, rows) && Apart(rows.shift, t.shiftOfst) && Apart(rows.reduce, t.reduceOfst)
    requires s < |rows.shift| && token < YYNTERMINAL && x < YYNTERMINAL && token != x
    requires rows.shift[s].Keys == {x} && rows.shift[s][x] != t.default[s]
    ensures ShiftAction(t, s, token) == rows.shift[s][x] <==> TokenStandsFor(t, token, x)
  {
    CompressedIsSparse(t, rows, s, token);
    assert x in rows.shift[s].Keys && forall y :: y in rows.shift[s] <==> y == x;
  }

  /** A token that has a fallback acts as it. */
  lemma {:induction false} ActsAsFallback(t: Tables, token: nat)
    requires token < |t.fallback| && t.fallback[token] != 0
    ensures ActsAs(t, token, t.fallback[token])
  {
    assert TokenStandsFor(t, token, t.fallback[token]);
  }

  predicate Matches(r: Rule, w: seq<nat>) {
    && |w| == |r.rhs|
    && forall j :: 0 <= j < |w| ==> w[j] in r.rhs[j]
  }

  /** One symbol is rewritten: a non-terminal by a rule, a terminal by a token that stands for it. */
  ghost predicate SymbolRewrites(t: Tables, x: nat, w: seq<nat>) {
    || (exists r :: 0 <= r < |t.rules| && t.rules[r].lhs == x && Matches(t.rules[r], w))
    || (|w| == 1 && TokenStandsFor(t, w[0], x))
  }

  ghost predicate RewritesAt(t: Tables, a: seq<nat>, b: seq<nat>, i: nat, w: seq<nat>) {
    i < |a| && SymbolRewrites(t, a[i], w) && b == a[..i] + w + a[i+1..]
  }

  ghost predicate Rewrites(t: Tables, a: seq<nat>, b: seq<nat>) {
    exists i: nat, w :: RewritesAt(t, a, b, i, w)
  }

  ghost predicate DerivesIn(t: Tables, a: seq<nat>, b: seq<nat>, n: nat)
    decreases n
  {
    if n == 0 then a == b else exists c :: Rewrites(t, a, c) && DerivesIn(t, c, b, n - 1)
  }

  ghost predicate Derives(t: Tables, a: seq<nat>, b: seq<nat>) {
    exists n: nat :: DerivesIn(t, a, b, n)
  }

  lemma {:induction false} DerivesInTransitive(t: Tables, a: seq<nat>, b: seq<nat>, c: seq<nat>, m: nat, n: nat)
    requires DerivesIn(t, a, b, m) && DerivesIn(t, b, c, n)
    ensures DerivesIn(t, a, c, m + n)
    decreases m
  {
    if m > 0 {
      var d :| Rewrites(t, a, d) && DerivesIn(t, d, b, m - 1);
      DerivesInTransitive(t, d, b, c, m - 1, n);
    }
  }

  lemma {:induction false} RewritesBefore(t: Tables, a: seq<nat>, b: seq<nat>, q: seq<nat>)
    requires Rewrites(t, a, b)
    ensures Rewrites(t, a + q, b + q)
  {
    var i: nat, w :| RewritesAt(t, a, b, i, w);
    assert b + q == (a + q)[..i] + w + (a + q)[i+1..];
    assert RewritesAt(t, a + q, b + q, i, w);
  }

  lemma {:induction false} RewritesAfter(t: Tables, p: seq<nat>, a: seq<nat>, b: seq<nat>)
    requires Rewrites(t, a, b)
    ensures Rewrites(t, p + a, p + b)
  {
    var i: nat, w :| RewritesAt(t, a, b, i, w);
    assert p + b == (p + a)[..|p| + i] + w + (p + a)[|p| + i + 1..];
    assert RewritesAt(t, p + a, p + b, |p| + i, w);
  }

  lemma {:induction false} DerivesInBefore(t: Tables, a: seq<nat>, b: seq<nat>, q: seq<nat>, n: nat)
    requires DerivesIn(t, a, b, n)
    ensures DerivesIn(t, a + q, b + q, n)
    decreases n
  {
    if n > 0 {
      var c :| Rewrites(t, a, c) && DerivesIn(t, c, b, n - 1);
      DerivesInBefore(t, c, b, q, n - 1);
      RewritesBefore(t, a, c, q);
    }
  }

  lemma {:induction false} DerivesInAfter(t: Tables, p: seq<nat>, a: seq<nat>, b: seq<nat>, n: nat)
    requires DerivesIn(t, a, b, n)
    ensures DerivesIn(t, p + a, p + b, n)
    decreases n
  {
    if n > 0 {
      var c :| Rewrites(t, a, c) && DerivesIn(t, c, b, n - 1);
      DerivesInAfter(t, p, c, b, n - 1);
      RewritesAfter(t, p, a, c);
    }
  }

  lemma {:induction false} DerivesTransitive(t: Tables, a: seq<nat>, b: seq<nat>, c: seq<nat>)
    requires Derives(t, a, b) && Derives(t, b, c)
    ensures Derives(t, a, c)
  {
    var m: nat :| DerivesIn(t, a, b, m);
    var n: nat :| DerivesIn(t, b, c, n);
    DerivesInTransitive(t, a, b, c, m, n);
  }

  lemma {:induction false} DerivesRefl(t: Tables, a: seq<nat>)
    ensures Derives(t, a, a)
  {
    assert DerivesIn(t, a, a, 0);
  }

  lemma {:induction false} DerivesConcat(t: Tables, a: seq<nat>, a': seq<nat>, b: seq<nat>, b': seq<nat>)
    requires Derives(t, a, a') && Derives(t, b, b')
    ensures Derives(t, a + b, a' + b')
  {
    var m: nat :| DerivesIn(t, a, a', m);
    var n: nat :| DerivesIn(t, b, b', n);
    DerivesInBefore(t, a, a', b, m);
    DerivesInAfter(t, a', b, b', n);
    DerivesInTransitive(t, a + b, a' + b, a' + b', m, n);
  }

  lemma {:induction false} RewriteOnce(t: Tables, x: nat, w: seq<nat>)
    requires SymbolRewrites(t, x, w)
    ensures DerivesIn(t, [x], w, 1)
  {
    assert w == [x][..0] + w + [x][1..];
    assert RewritesAt(t, [x], w, 0, w);
    assert Rewrites(t, [x], w) && DerivesIn(t, w, w, 0);
  }

  // ----- Trees that follow the rules, up to what a stack entry may stand for -----

  /** Rule r is optimized out and has the single right-hand side symbol y. */
  predicate UnitRule(t: Tables, r: nat, y: nat) {
    && r in t.optimizedOut
    && r < |t.rules|
    && |t.rules[r].rhs| == 1
    && y in t.rules[r].rhs[0]
  }

  /** n optimized-out unit rules lead from symbol y up to symbol x. */
  ghost predicate UnitSteps(t: Tables, y: nat, x: nat, n: nat)
    decreases n
  {
    if n == 0 then y == x
    else exists r: nat :: UnitRule(t, r, y) && UnitSteps(t, t.rules[r].lhs, x, n - 1)
  }

  /** A stack entry marked y may stand where the grammar has x. */
  ghost predicate ActsAs(t: Tables, y: nat, x: nat) {
    || (exists n: nat :: UnitSteps(t, y, x, n))
    || TokenStandsFor(t, y, x)
  }

  ghost predicate ActsAsOneOf(t: Tables, y: nat, xs: set<nat>) {
    exists x :: x in xs && ActsAs(t, y, x)
  }

  ghost predicate Conforms(t: Tables, tree: Tree) {
    match tree
    case Leaf(token) => token.code < YYNTERMINAL
    case Node(rule, kids) =>
      && rule < |t.rules|
      && |kids| == |t.rules[rule].rhs|
      && (forall i :: 0 <= i < |kids| ==> ActsAsOneOf(t, Root(t, kids[i]), t.rules[rule].rhs[i]))
      && (forall i :: 0 <= i < |kids| ==> Conforms(t, kids[i]))
  }

  lemma {:induction false} ActsAsRefl(t: Tables, x: nat)
    ensures ActsAs(t, x, x)
  {
    assert UnitSteps(t, x, x, 0);
  }

  lemma {:induction false} UnitStepsDerive(t: Tables, y: nat, x: nat, n: nat)
    requires UnitSteps(t, y, x, n)
    ensures Derives(t, [x], [y])
    decreases n
  {
    if n == 0 {
      DerivesRefl(t, [x]);
    } else {
      var r: nat :| UnitRule(t, r, y) && UnitSteps(t, t.rules[r].lhs, x, n - 1);
      var lhs := t.rules[r].lhs;
      UnitStepsDerive(t, lhs, x, n - 1);
      assert Matches(t.rules[r], [y]);
      RewriteOnce(t, lhs, [y]);
      DerivesTransitive(t, [x], [lhs], [y]);
    }
  }

  lemma {:induction false} ActsAsDerives(t: Tables, y: nat, x: nat)
    requires ActsAs(t, y, x)
    ensures Derives(t, [x], [y])
  {
    if n: nat :| UnitSteps(t, y, x, n) {
      UnitStepsDerive(t, y, x, n);
    } else {
      RewriteOnce(t, x, [y]);
    }
  }

  /** The symbols of its rule that the parts of a node stand for. */
  lemma {:induction false} SymbolsOf(t: Tables, rule: nat, kids: seq<Tree>) returns (w: seq<nat>)
    requires Conforms(t, Node(rule, kids))
    ensures Matches(t.rules[rule], w) && |w| == |kids|
    ensures forall i :: 0 <= i < |w| ==> ActsAs(t, Root(t, kids[i]), w[i])
  {
    var rhs := t.rules[rule].rhs;
    w := seq(|kids|, i requires 0 <= i < |kids| => var x :| x in rhs[i] && ActsAs(t, Root(t, kids[i]), x); x);
  }

  /** Symbol by symbol, the roots of some trees can be derived from a string that matches a rule. */
  lemma {:induction false} RuleDerivesRoots(t: Tables, rule: nat, kids: seq<Tree>) returns (n: nat)
    requires Conforms(t, Node(rule, kids))
    ensures n > 0 && DerivesIn(t, [t.rules[rule].lhs], Roots(t, kids), n)
  {
    var lhs := t.rules[rule].lhs;
    var w := SymbolsOf(t, rule, kids);
    RewriteOnce(t, lhs, w);
    SymbolwiseDerives(t, w, Roots(t, kids));
    var m: nat :| DerivesIn(t, w, Roots(t, kids), m);
    DerivesInTransitive(t, [lhs], w, Roots(t, kids), 1, m);
    n := 1 + m;
  }

  lemma {:induction false} SymbolwiseDerives(t: Tables, w: seq<nat>, v: seq<nat>)
    requires |w| == |v| && forall i :: 0 <= i < |w| ==> ActsAs(t, v[i], w[i])
    ensures Derives(t, w, v)
  {
    hide DerivesIn, Derives, ActsAs;
    if w == [] {
      DerivesRefl(t, w);
    } else {
      var k := |w| - 1;
      SymbolwiseDerives(t, w[..k], v[..k]);
      ActsAsDerives(t, v[k], w[k]);
      DerivesConcat(t, w[..k], v[..k], [w[k]], [v[k]]);
      assert w == w[..k] + [w[k]] && v == v[..k] + [v[k]];
    }
  }

  /** A conforming tree is a derivation of its yield from its root. */
  lemma {:induction false} TreeDerives(t: Tables, tree: Tree)
    requires Conforms(t, tree)
    ensures Derives(t, [Root(t, tree)], Codes(Yield(tree)))
    decreases tree, 0
  {
    match tree
    case Leaf(token) =>
      assert Codes([token]) == [token.code];
      DerivesRefl(t, [token.code]);
    case Node(rule, kids) =>
      var n := RuleDerivesRoots(t, rule, kids);
      ForestDerives(t, kids);
      DerivesTransitive(t, [t.rules[rule].lhs], Roots(t, kids), Codes(Yields(kids)));
  }

  lemma {:induction false} ForestDerives(t: Tables, trees: seq<Tree>)
    requires forall i :: 0 <= i < |trees| ==> Conforms(t, trees[i])
    ensures Derives(t, Roots(t, trees), Codes(Yields(trees)))
    decreases trees, 1
  {
    if trees == [] {
      assert Roots(t, trees) == Codes(Yields(trees));
      DerivesRefl(t, []);
    } else {
      var k := |trees| - 1;
      ForestDerives(t, trees[..k]);
      TreeDerives(t, trees[k]);
      DerivesConcat(t, Roots(t, trees[..k]), Codes(Yields(trees[..k])),
                    [Root(t, trees[k])], Codes(Yield(trees[k])));
      assert Roots(t, trees) == Roots(t, trees[..k]) + [Root(t, trees[k])];
      CodesConcat(Yields(trees[..k]), Yield(trees[k]));
    }
  }
}
