/** A small set of tables in which the three things that go wrong in the driver do go wrong.

    Three of the four rules are rules of the real grammar; the first one cuts a statement down to nested
    parentheses:

      0  input   ::= explain anylist RP
      1  explain ::=
      2  anylist ::=
      3  anylist ::= anylist LP anylist RP

    A parser starts with an empty rule, each open parenthesis needs one more, and the rule of the start
    symbol is fused.
 */
module NestedTables {
  import opened LemonTables
  import opened Grammar
  import opened ForestBound
  import opened PushMachine
  import opened ParserRuns
  import opened FusedReduce
  import opened Conservation
  import opened GrowingStack

  const LP: nat := 22
  const RP: nat := 23
  const INPUT: nat := 144
  const EXPLAIN: nat := 147
  const ANYLIST: nat := 249

  const RULES: seq<Rule> := [
    Rule(INPUT, [{EXPLAIN}, {ANYLIST}, {RP}]),
    Rule(EXPLAIN, []),
    Rule(ANYLIST, []),
    Rule(ANYLIST, [{ANYLIST}, {LP}, {ANYLIST}, {RP}])]

  const TABLES: Tables := Tables(
    action := [3, 672, 3, 675, YY_ACCEPT_ACTION, 2, 4, 1],
    lookahead := [LP, RP, LP, RP, INPUT, ANYLIST, ANYLIST, EXPLAIN],
    shiftOfst := [8, 8, -22, 8, -20],
    reduceOfst := [-140, -244, YY_REDUCE_USE_DFLT, -243],
    default := [1005, 1006, YY_ERROR_ACTION, 1006, YY_ERROR_ACTION],
    fallback := [],
    rules := RULES,
    start := INPUT,
    optimizedOut := {},
    items := [
      {Item(0, 0), Item(1, 0)},
      {Item(0, 1), Item(2, 0), Item(3, 0)},
      {Item(0, 2), Item(3, 1)},
      {Item(3, 2), Item(2, 0), Item(3, 0)},
      {Item(3, 3), Item(3, 1)}])

  // ----- The tables are valid -----

  lemma {:induction false} ShiftsFit(s: nat, x: nat)
    requires s < 5 && Stored(TABLES, TABLES.shiftOfst[s], x)
    ensures PushOk(TABLES, s, x, Entry(TABLES, TABLES.shiftOfst[s], x))
  {
    var i := TABLES.shiftOfst[s] + x;
    assert s == 0 || s == 1 || s == 2 || s == 3 || s == 4;
    assert i == 0 || i == 1 || i == 2 || i == 3 || i == 4 || i == 5 || i == 6 || i == 7;
  }

  lemma {:induction false} GotosFit(s: nat, r: nat)
    requires s < 5 && r < 4 && Item(r, 0) in TABLES.items[s]
    ensures GotoOk(TABLES, s, RULES[r].lhs)
  {
    var lhs := RULES[r].lhs;
    ActsAsRefl(TABLES, lhs);
    assert s == 0 || s == 1 || s == 2 || s == 3 || s == 4;
    if lhs != INPUT {
      assert PushOk(TABLES, s, lhs, Goto(TABLES, s, lhs));
    }
  }

  lemma DefaultsFit(s: nat)
    requires s < 5
    ensures TABLES.default[s] == YY_ERROR_ACTION || ReduceOk(TABLES, s, TABLES.default[s])
  {
  }

  lemma TablesWellFormed()
    ensures WellFormed(TABLES)
  {
  }

  lemma {:induction false} TablesAreValid()
    ensures Valid(TABLES)
  {
    var t := TABLES;
    TablesWellFormed();
    forall s, x | 0 <= s < |t.items| && 0 <= x < YYNOCODE && Stored(t, t.shiftOfst[s], x)
      ensures PushOk(t, s, x, Entry(t, t.shiftOfst[s], x))
    {
      ShiftsFit(s, x);
    }
    forall s | 0 <= s < |t.items| ensures t.default[s] == YY_ERROR_ACTION || ReduceOk(t, s, t.default[s]) {
      DefaultsFit(s);
    }
    forall s, r | 0 <= s < |t.items| && 0 <= r < |t.rules| && Item(r, 0) in t.items[s]
      ensures GotoOk(t, s, t.rules[r].lhs)
    {
      GotosFit(s, r);
    }
  }

  // ----- No non-terminal derives itself: rules that are not empty bring in a terminal for good -----

  predicate HasTerminal(a: seq<nat>) {
    exists i :: 0 <= i < |a| && a[i] < YYNTERMINAL
  }

  lemma {:induction false} SymbolKeepsTerminal(x: nat, w: seq<nat>)
    requires SymbolRewrites(TABLES, x, w)
    ensures x < YYNTERMINAL ==> HasTerminal(w)
    ensures w == [] || HasTerminal(w)
  {
    if r :| 0 <= r < |RULES| && RULES[r].lhs == x && Matches(RULES[r], w) {
      assert r == 0 || r == 1 || r == 2 || r == 3;
      if r == 0 { assert w[2] == RP; }
      if r == 3 { assert w[1] == LP; }
    } else {
      assert TokenStandsFor(TABLES, w[0], x);
    }
  }

  /** No single non-terminal can be derived from such a string any more. */
  predicate Spent(a: seq<nat>) {
    a == [] || HasTerminal(a)
  }

  lemma {:induction false} RewriteStaysSpent(a: seq<nat>, b: seq<nat>)
    requires Rewrites(TABLES, a, b) && Spent(a)
    ensures Spent(b)
  {
    var i: nat, w :| RewritesAt(TABLES, a, b, i, w);
    SymbolKeepsTerminal(a[i], w);
    var k :| 0 <= k < |a| && a[k] < YYNTERMINAL;
    if k == i {
      var j :| 0 <= j < |w| && w[j] < YYNTERMINAL;
      assert b[i + j] == w[j];
    } else {
      assert b[if k < i then k else k - 1 + |w|] == a[k];
    }
  }

  lemma {:induction false} DerivationStaysSpent(a: seq<nat>, b: seq<nat>, n: nat)
    requires DerivesIn(TABLES, a, b, n) && Spent(a)
    ensures Spent(b)
    decreases n
  {
    if n > 0 {
      var c :| Rewrites(TABLES, a, c) && DerivesIn(TABLES, c, b, n - 1);
      RewriteStaysSpent(a, c);
      DerivationStaysSpent(c, b, n - 1);
    }
  }

  lemma {:induction false} FirstRewriting(x: nat, c: seq<nat>)
    requires Rewrites(TABLES, [x], c)
    ensures Spent(c)
  {
    var i: nat, w :| RewritesAt(TABLES, [x], c, i, w);
    assert c == w;
    SymbolKeepsTerminal(x, w);
  }

  lemma {:induction false} NotDerivedFromItself(x: nat, n: nat)
    requires x >= YYNTERMINAL && n > 0
    ensures !DerivesIn(TABLES, [x], [x], n)
  {
    if DerivesIn(TABLES, [x], [x], n) {
      var c :| Rewrites(TABLES, [x], c) && DerivesIn(TABLES, c, [x], n - 1);
      FirstRewriting(x, c);
      DerivationStaysSpent(c, [x], n - 1);
    }
  }

  lemma {:induction false} TablesAreReady()
    ensures Ready(TABLES, INITIAL)
  {
    TablesAreValid();
    forall r, n: nat | 0 <= r < |RULES| && n > 0
      ensures !DerivesIn(TABLES, [RULES[r].lhs], [RULES[r].lhs], n)
    {
      NotDerivedFromItself(RULES[r].lhs, n);
    }
    InitialInv(TABLES);
  }

  // ----- Nested parentheses -----

  const OPEN: Token := Token(LP, "(")
  const CLOSE: Token := Token(RP, ")")

  function Opens(k: nat): (tokens: seq<Token>)
    ensures |tokens| == k && AllTokens(tokens)
  {
    seq(k, _ => OPEN)
  }

  function ListEntry(stateno: nat): StackEntry {
    StackEntry(stateno, ANYLIST, Node(2, []))
  }

  /** The stack after k open parentheses. */
  function Nested(k: nat): (stack: seq<StackEntry>)
    ensures |stack| == 2 + 2 * k && stack[|stack|-1].stateno == if k == 0 then 1 else 3
  {
    if k == 0 then [BASE, StackEntry(1, EXPLAIN, Node(1, []))]
    else Nested(k - 1) + [ListEntry(if k == 1 then 2 else 4)] + [StackEntry(3, LP, Leaf(OPEN))]
  }

  /** Before anything else the empty rule of explain is used. */
  lemma {:induction false} ExplainReduces(token: Token)
    requires token.code < YYNTERMINAL
    ensures StepDefined(TABLES, INITIAL, token) && NextMove(TABLES, INITIAL, token) == Reduce(1)
    ensures !Done(TABLES, INITIAL, token) && Step(TABLES, INITIAL, token).stack == Nested(0)
  {
    assert ActionFor(TABLES, 0, token.code) == 1005;
    assert Goto(TABLES, 0, EXPLAIN) == 1;
    assert TopMinors(INITIAL.stack, 0) == [];
  }

  lemma {:induction false} EmptyRulePushes(t: Tables, c: Config, rule: nat)
    requires |t.lookahead| == |t.action| && 1 <= |c.stack| < YYSTACKDEPTH && Reducible(t, c.stack, rule)
    requires t.rules[rule].rhs == [] && GotoOf(t, c, rule) <= YY_MAX_SHIFT
    ensures ReduceStep(t, c, rule).stack
            == c.stack + [StackEntry(GotoOf(t, c, rule), t.rules[rule].lhs, Node(rule, []))]
  {
    assert TopMinors(c.stack, 0) == [] && c.stack[..|c.stack|-0] == c.stack;
  }

  lemma {:induction false} ListStates(s: nat, x: nat)
    requires s == 1 || s == 3
    ensures ActionFor(TABLES, s, x) == 1006
    ensures GotoDefined(TABLES, s, ANYLIST) && Goto(TABLES, s, ANYLIST) == s + 1
  {
  }

  lemma {:induction false} ListMove(c: Config, token: Token)
    requires Ready(TABLES, c) && token.code < YYNTERMINAL && (Top(c).stateno == 1 || Top(c).stateno == 3)
    ensures StepDefined(TABLES, c, token) && NextMove(TABLES, c, token) == Reduce(2)
  {
    StepKeepsInv(TABLES, c, token);
    ListStates(Top(c).stateno, token.code);
  }

  /** At the start of a list its empty rule is used, if there is room. */
  lemma {:induction false} ListReduces(c: Config, token: Token)
    requires Ready(TABLES, c) && token.code < YYNTERMINAL && (Top(c).stateno == 1 || Top(c).stateno == 3)
    requires |c.stack| < YYSTACKDEPTH
    ensures StepDefined(TABLES, c, token) && NextMove(TABLES, c, token) == Reduce(2)
    ensures !Done(TABLES, c, token) && Step(TABLES, c, token).stack == c.stack + [ListEntry(Top(c).stateno + 1)]
  {
    ListMove(c, token);
    ListStates(Top(c).stateno, token.code);
    EmptyRulePushes(TABLES, c, 2);
  }

  lemma {:induction false} OpenShifts(c: Config)
    requires Ready(TABLES, c) && (Top(c).stateno == 2 || Top(c).stateno == 4) && |c.stack| < YYSTACKDEPTH
    ensures StepDefined(TABLES, c, OPEN) && Done(TABLES, c, OPEN)
    ensures Step(TABLES, c, OPEN).stack == c.stack + [StackEntry(3, LP, Leaf(OPEN))]
  {
    StepKeepsInv(TABLES, c, OPEN);
    assert ActionFor(TABLES, Top(c).stateno, LP) == 3;
  }

  lemma {:induction false} OpenNests(c: Config, k: nat)
    requires Ready(TABLES, c) && c.stack == Nested(k) && k < 49
    ensures Call(TABLES, c, OPEN).stack == Nested(k + 1)
  {
    ListReduces(c, OPEN);
    StepKeepsInv(TABLES, c, OPEN);
    OpenShifts(Step(TABLES, c, OPEN));
  }

  lemma {:induction false} FirstOpenNests()
    requires Ready(TABLES, INITIAL)
    ensures Call(TABLES, INITIAL, OPEN).stack == Nested(1)
  {
    ExplainReduces(OPEN);
    StepKeepsInv(TABLES, INITIAL, OPEN);
    OpenNests(Step(TABLES, INITIAL, OPEN), 0);
  }

  lemma {:induction false} OpensNest(k: nat)
    requires Ready(TABLES, INITIAL) && 1 <= k <= 49
    ensures Run(TABLES, INITIAL, Opens(k)).stack == Nested(k)
  {
    assert Opens(k)[..k-1] == Opens(k - 1);
    if k == 1 {
      assert Run(TABLES, INITIAL, Opens(0)) == INITIAL;
      FirstOpenNests();
    } else {
      OpensNest(k - 1);
      OpenNests(Run(TABLES, INITIAL, Opens(k - 1)), k - 1);
    }
  }

  // ----- The fiftieth open parenthesis loses the one before -----

  lemma {:induction false} FullStackLoses(c: Config)
    requires Ready(TABLES, c) && c.stack == Nested(49)
    ensures CallLoss(TABLES, c, OPEN) == [Leaf(OPEN)]
  {
    ListMove(c, OPEN);
    assert Overloads(TABLES, c, OPEN);
    assert Done(TABLES, c, OPEN);
  }

  /** A run in which a value is neither used nor destroyed. */
  lemma {:induction false} NestingLosesAValue()
    ensures Ready(TABLES, INITIAL)
    ensures !AllAccounted(Leaf(OPEN), Freed(Run(TABLES, INITIAL, Opens(50))).trace)
  {
    TablesAreReady();
    OpensNest(49);
    assert Opens(50)[..49] == Opens(49);
    FullStackLoses(Run(TABLES, INITIAL, Opens(49)));
    assert Leaf(OPEN) in RunLoss(TABLES, Opens(50));
    FreedParserBalances(Leaf(OPEN), TABLES, Opens(50));
  }

  // ----- A closing parenthesis makes the next token disappear -----

  /** The stack on which the rule of the start symbol waits to be used. */
  const WAITING: seq<StackEntry> := Nested(0) + [ListEntry(2)] + [StackEntry(1004, RP, Leaf(CLOSE))]

  lemma {:induction false} CloseShifts(c: Config)
    requires Ready(TABLES, c) && Top(c).stateno == 2 && |c.stack| < YYSTACKDEPTH
    ensures StepDefined(TABLES, c, CLOSE) && Done(TABLES, c, CLOSE)
    ensures Step(TABLES, c, CLOSE).stack == c.stack + [StackEntry(1004, RP, Leaf(CLOSE))]
  {
    StepKeepsInv(TABLES, c, CLOSE);
    assert ActionFor(TABLES, 2, RP) == 672;
  }

  lemma {:induction false} CloseFollows(c: Config)
    requires Ready(TABLES, c) && c.stack == Nested(0)
    ensures Call(TABLES, c, CLOSE).stack == WAITING
  {
    ListReduces(c, CLOSE);
    StepKeepsInv(TABLES, c, CLOSE);
    CloseShifts(Step(TABLES, c, CLOSE));
  }

  lemma {:induction false} CloseWaits()
    requires Ready(TABLES, INITIAL)
    ensures Call(TABLES, INITIAL, CLOSE).stack == WAITING
  {
    ExplainReduces(CLOSE);
    StepKeepsInv(TABLES, INITIAL, CLOSE);
    CloseFollows(Step(TABLES, INITIAL, CLOSE));
  }

  lemma {:induction false} WaitingEmpties(c: Config)
    requires Ready(TABLES, c) && c.stack == WAITING
    ensures Discards(TABLES, c)
  {
    PendingReduces(TABLES, c, ANY_TOKEN);
    assert Goto(TABLES, 0, INPUT) == YY_ACCEPT_ACTION;
    assert |Step(TABLES, c, ANY_TOKEN).stack| == 1;
    SettledBase(TABLES, Forced(TABLES, c));
  }

  /** Whatever token follows, the call only accepts, and the two machines part. */
  lemma {:induction false} CloseDiscardsTheNext(token: Token)
    requires token.code < YYNTERMINAL
    ensures Ready(TABLES, INITIAL)
    ensures Discards(TABLES, Run(TABLES, INITIAL, [CLOSE]))
    ensures Agrees(TABLES, [CLOSE]) && !Agrees(TABLES, [CLOSE, token])
  {
    TablesAreReady();
    CloseWaits();
    assert [CLOSE][..0] == [] && [CLOSE, token][..1] == [CLOSE];
    assert Run(TABLES, INITIAL, []) == INITIAL;
    WaitingEmpties(Run(TABLES, INITIAL, [CLOSE]));
    assert Agrees(TABLES, []) && !Discards(TABLES, INITIAL);
    AgreesNext(TABLES, [CLOSE]);
    AgreesNext(TABLES, [CLOSE, token]);
  }

  // ----- Without memory the first token drops the base -----

  lemma {:induction false} FirstTokenDropsBase(token: Token)
    requires token.code < YYNTERMINAL
    ensures StepDefined(TABLES, INITIAL, token) && NextMove(TABLES, INITIAL, token) == Reduce(1)
    ensures DropsBase(TABLES, Sized(INITIAL, 1, 1), 1, [])
  {
    ExplainReduces(token);
  }

  /** The growing build, when the allocator refuses everything, after its first reduction. */
  method FirstReductionWithoutMemory(token: Token) returns (p: GrowingParser)
    requires token.code < YYNTERMINAL
    ensures fresh(p) && p.yytos == -1
  {
    FirstTokenDropsBase(token);
    p := new GrowingParser.Alloc(TABLES, []);
    p.Reduce(1);
  }
}
