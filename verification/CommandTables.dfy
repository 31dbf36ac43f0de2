/** A small set of tables that is valid, so that what is proved of all valid tables is about something.

    The grammar keeps the top of the real one, with a command cut down to EXPLAIN and any one token:

      0  input   ::= cmdlist
      1  cmdlist ::= cmdlist ecmd
      2  cmdlist ::= ecmd            (optimized out)
      3  ecmd    ::= SEMI
      4  ecmd    ::= EXPLAIN ANY

    It uses a fallback (QUERY to EXPLAIN), the wildcard, fused actions, a default reduction and an
    optimized-out unit rule.
 */
module CommandTables {
  import opened LemonTables
  import opened Grammar
  import opened ForestBound
  import opened PushMachine
  import opened ParserRuns
  import opened FusedReduce
  import opened ViablePrefix

  const SEMI: nat := 1
  const EXPLAIN: nat := 2
  const INPUT: nat := 144
  const CMDLIST: nat := 145
  const ECMD: nat := 146

  const RULES: seq<Rule> := [
    Rule(INPUT, [{CMDLIST}]),
    Rule(CMDLIST, [{CMDLIST}, {ECMD}]),
    Rule(CMDLIST, [{ECMD}]),
    Rule(ECMD, [{SEMI}]),
    Rule(ECMD, [{EXPLAIN}, {YYWILDCARD}])]

  const TABLES: Tables := Tables(
    //      SEMI     EXPLAIN  ANY         input             cmdlist  ecmd   ecmd
    action := [675, 2, 676, YY_ACCEPT_ACTION, 1, 1, 673],
    lookahead := [SEMI, EXPLAIN, YYWILDCARD, INPUT, CMDLIST, ECMD, ECMD],
    shiftOfst := [-1, -1, -94],
    reduceOfst := [-141, -140],
    default := [YY_ERROR_ACTION, 1004, YY_ERROR_ACTION],
    fallback := [0, 0, 0, EXPLAIN],
    rules := RULES,
    start := INPUT,
    optimizedOut := {2},
    items := [
      {Item(0, 0), Item(1, 0), Item(2, 0), Item(3, 0), Item(4, 0)},
      {Item(0, 1), Item(1, 1), Item(3, 0), Item(4, 0)},
      {Item(4, 1)}])

  lemma {:induction false} ShiftEntries(s: nat, x: nat)
    requires s < 3 && Stored(TABLES, TABLES.shiftOfst[s], x)
    ensures if s < 2 then x == SEMI || x == EXPLAIN else x == YYWILDCARD
  {
    var i := TABLES.shiftOfst[s] + x;
    assert i == 0 || i == 1 || i == 2 || i == 3 || i == 4 || i == 5 || i == 6;
  }

  lemma {:induction false} ShiftsFit(s: nat, x: nat)
    requires s < 3 && Stored(TABLES, TABLES.shiftOfst[s], x)
    ensures PushOk(TABLES, s, x, Entry(TABLES, TABLES.shiftOfst[s], x))
  {
    ShiftEntries(s, x);
  }

  lemma {:induction false} GotosFit(s: nat, r: nat)
    requires s < 3 && r < 5 && Item(r, 0) in TABLES.items[s]
    ensures GotoOk(TABLES, s, RULES[r].lhs)
  {
    var lhs := RULES[r].lhs;
    ActsAsRefl(TABLES, lhs);
    if s == 0 {
      assert UnitRule(TABLES, 2, ECMD) && UnitSteps(TABLES, CMDLIST, CMDLIST, 0);
      assert UnitSteps(TABLES, ECMD, CMDLIST, 1);
      assert ActsAs(TABLES, ECMD, CMDLIST);
      if lhs != INPUT {
        assert PushOk(TABLES, 0, CMDLIST, 1);
      }
    } else {
      assert s == 1 && lhs == ECMD;
      assert PushOk(TABLES, 1, ECMD, 673);
    }
  }

  lemma TablesWellFormed()
    ensures WellFormed(TABLES)
  {
  }

  lemma DefaultsFit(s: nat)
    requires s < 3
    ensures TABLES.default[s] == YY_ERROR_ACTION || ReduceOk(TABLES, s, TABLES.default[s])
  {
  }

  lemma {:induction false} TablesAreValid()
    ensures Valid(TABLES) && StartNotFused(TABLES)
  {
    var t := TABLES;
    TablesWellFormed();
    forall s, x | 0 <= s < |t.items| && 0 <= x < YYNOCODE && Stored(t, t.shiftOfst[s], x)
      ensures PushOk(t, s, x, Entry(t, t.shiftOfst[s], x))
    {
      ShiftsFit(s, x);
    }
    forall s | 0 <= s < |t.items| ensures t.default[s] == YY_ERROR_ACTION || ReduceOk(t, s, t.default[s]) {
      DefaultsFit(s);
    }
    forall s, r | 0 <= s < |t.items| && 0 <= r < |t.rules| && Item(r, 0) in t.items[s]
      ensures GotoOk(t, s, t.rules[r].lhs)
    {
      GotosFit(s, r);
    }
  }

  // ----- Every item is called for, and every symbol can become tokens -----

  lemma {:induction false} FirstBegins()
    ensures BeginsIn(TABLES, 0, 0, 0) && BeginsIn(TABLES, 0, 1, 1) && BeginsIn(TABLES, 0, 2, 1)
    ensures BeginsIn(TABLES, 0, 3, 2) && BeginsIn(TABLES, 0, 4, 2)
  {
    hide BeginsIn;
    BeginsStart(TABLES, 0);
    BeginsAfter(TABLES, 0, Item(0, 0), 1, 1);
    BeginsAfter(TABLES, 0, Item(0, 0), 2, 1);
    BeginsAfter(TABLES, 0, Item(2, 0), 3, 2);
    BeginsAfter(TABLES, 0, Item(2, 0), 4, 2);
  }

  lemma {:induction false} SecondBegins()
    ensures BeginsIn(TABLES, 1, 3, 0) && BeginsIn(TABLES, 1, 4, 0)
  {
    hide BeginsIn;
    BeginsAfter(TABLES, 1, Item(1, 1), 3, 0);
    BeginsAfter(TABLES, 1, Item(1, 1), 4, 0);
  }

  lemma {:induction false} CalledFor(s: nat, it: Item)
    requires s < 3 && it in TABLES.items[s]
    ensures ItemCalledFor(TABLES, s, it)
  {
    hide BeginsIn;
    FirstBegins();
    SecondBegins();
  }

  lemma {:induction false} SymbolYields(r: nat, j: nat)
    requires r < 5 && j < |RULES[r].rhs|
    ensures Yielding(TABLES, RULES[r].rhs[j])
  {
    hide Yielding;
    TokenYields(TABLES, SEMI);
    TokenYields(TABLES, EXPLAIN);
    TokenYields(TABLES, YYWILDCARD);
    UnitYields(TABLES, 3, SEMI);
    UnitYields(TABLES, 2, ECMD);
  }

  lemma {:induction false} TablesAreClosed()
    ensures Closed(TABLES) && Productive(TABLES)
  {
    hide ItemCalledFor, Yielding;
    forall s, it | 0 <= s < |TABLES.items| && it in TABLES.items[s] ensures ItemCalledFor(TABLES, s, it) {
      CalledFor(s, it);
    }
    assert Item(0, 0) in TABLES.items[0] && Item(0, 1) in TABLES.items[1] && Item(4, 1) in TABLES.items[2];
    forall r, j | 0 <= r < |RULES| && 0 <= j < |RULES[r].rhs| ensures Yielding(TABLES, RULES[r].rhs[j]) {
      SymbolYields(r, j);
    }
  }

  // ----- The arrays are packed rows -----

  const ROWS: Rows := Rows(
    [map[SEMI := 675, EXPLAIN := 2], map[SEMI := 675, EXPLAIN := 2], map[YYWILDCARD := 676]],
    [map[INPUT := YY_ACCEPT_ACTION, CMDLIST := 1, ECMD := 1], map[ECMD := 673]])

  /** The first two states have the same row and share its offset; the last two non-terminal rows overlap. */
  lemma {:induction false} RowsArePlaced()
    ensures Placed(TABLES, ROWS) && Apart(ROWS.shift, TABLES.shiftOfst) && Apart(ROWS.reduce, TABLES.reduceOfst)
  {
    var t := TABLES;
    forall i | 0 <= i < |t.lookahead|
      ensures AccountedFor(t, ROWS.shift, t.shiftOfst, 0, YYNTERMINAL, i)
      ensures AccountedFor(t, ROWS.reduce, t.reduceOfst, YYNTERMINAL, YYNOCODE, i)
    {
      assert i == 0 || i == 1 || i == 2 || i == 3 || i == 4 || i == 5 || i == 6;
      if i <= 2 {
        assert FromRow(t, ROWS.shift, t.shiftOfst, i, if i == 2 then 2 else 0);
      } else {
        assert FromRow(t, ROWS.reduce, t.reduceOfst, i, if i == 6 then 1 else 0);
      }
    }
  }

  // ----- No non-terminal derives itself -----

  function Rank(x: nat): nat {
    if x == INPUT then 3 else if x == CMDLIST then 2 else if x == ECMD then 1 else 0
  }

  /** Rewriting never shortens, and one symbol alone is only rewritten to one of lower rank. */
  ghost predicate Falls(a: seq<nat>, b: seq<nat>) {
    && 0 < |a| <= |b|
    && (|b| == 1 ==> Rank(b[0]) <= Rank(a[0]) && (Rank(a[0]) > 0 ==> Rank(b[0]) < Rank(a[0])))
  }

  lemma {:induction false} RewriteRanks(a: seq<nat>, b: seq<nat>)
    requires Rewrites(TABLES, a, b)
    ensures Falls(a, b)
  {
    var i: nat, w :| RewritesAt(TABLES, a, b, i, w);
    if r :| 0 <= r < |RULES| && RULES[r].lhs == a[i] && Matches(RULES[r], w) {
      assert r == 0 || r == 1 || r == 2 || r == 3 || r == 4;
      if |b| == 1 {
        assert b[0] == w[0] && w[0] in RULES[r].rhs[0];
      }
    } else {
      assert TokenStandsFor(TABLES, w[0], a[i]);
      assert |b| == 1 ==> b[0] == w[0];
    }
  }

  lemma {:induction false} DerivationFalls(t: Tables, a: seq<nat>, b: seq<nat>, n: nat)
    requires forall c, d :: Rewrites(t, c, d) ==> Falls(c, d)
    requires DerivesIn(t, a, b, n) && n > 0 && |b| == 1
    ensures Falls(a, b)
    decreases n
  {
    var c :| Rewrites(t, a, c) && DerivesIn(t, c, b, n - 1);
    if n > 1 {
      DerivationFalls(t, c, b, n - 1);
    }
  }

  lemma {:induction false} NothingDerivesItself()
    ensures NoSelfDerivation(TABLES)
  {
    forall c, d | Rewrites(TABLES, c, d) ensures Falls(c, d) {
      RewriteRanks(c, d);
    }
    forall r, n: nat | 0 <= r < |RULES| && n > 0
      ensures !DerivesIn(TABLES, [RULES[r].lhs], [RULES[r].lhs], n)
    {
      if DerivesIn(TABLES, [RULES[r].lhs], [RULES[r].lhs], n) {
        assert r == 0 || r == 1 || r == 2 || r == 3 || r == 4;
        DerivationFalls(TABLES, [RULES[r].lhs], [RULES[r].lhs], n);
      }
    }
  }

  // ----- A run that accepts -----

  const SEMICOLON: Token := Token(SEMI, ";")
  const END: Token := Token(0, "")

  const COMMAND: Tree := Node(3, [Leaf(SEMICOLON)])
  const AFTER_SEMI: Config := Config([BASE, StackEntry(1007, SEMI, Leaf(SEMICOLON))], [Shifted(SEMICOLON)])
  const AFTER_COMMAND: Config :=
    Config([BASE, StackEntry(1, ECMD, COMMAND)], [Shifted(SEMICOLON), Reduced(3, [Leaf(SEMICOLON)])])
  const ACCEPTED: Config := Config([BASE], AFTER_COMMAND.trace + [Accepted(0, [COMMAND])])

  /** The semicolon is shifted and its reduction put off. */
  lemma {:induction false} SemicolonShifts()
    ensures StepDefined(TABLES, INITIAL, SEMICOLON) && Done(TABLES, INITIAL, SEMICOLON)
    ensures Step(TABLES, INITIAL, SEMICOLON) == AFTER_SEMI
  {
    assert ActionFor(TABLES, 0, SEMI) == 675;
  }

  /** The end of input forces it, and ecmd is left where cmdlist is expected. */
  lemma {:induction false} EndReduces()
    ensures StepDefined(TABLES, AFTER_SEMI, END) && !Done(TABLES, AFTER_SEMI, END)
    ensures Step(TABLES, AFTER_SEMI, END) == AFTER_COMMAND
  {
    assert ActionFor(TABLES, 1007, 0) == 1007;
    assert Goto(TABLES, 0, ECMD) == 1;
    assert TopMinors(AFTER_SEMI.stack, 1) == [Leaf(SEMICOLON)];
  }

  lemma {:induction false} EndAccepts()
    ensures StepDefined(TABLES, AFTER_COMMAND, END) && Done(TABLES, AFTER_COMMAND, END)
    ensures Step(TABLES, AFTER_COMMAND, END) == ACCEPTED
  {
    assert ActionFor(TABLES, 1, 0) == 1004;
    assert Goto(TABLES, 0, INPUT) == YY_ACCEPT_ACTION;
    assert TopMinors(AFTER_COMMAND.stack, 1) == [COMMAND];
  }

  /** One semicolon and the end of input lead back to the base by an accept. */
  lemma {:induction false} SemicolonIsAccepted()
    ensures Ready(TABLES, INITIAL) && AllTokens([SEMICOLON])
    ensures Call(TABLES, Run(TABLES, INITIAL, [SEMICOLON]), END) == ACCEPTED
  {
    TablesAreValid();
    NothingDerivesItself();
    InitialInv(TABLES);
    SemicolonShifts();
    assert [SEMICOLON][..0] == [];
    assert Run(TABLES, INITIAL, []) == INITIAL;
    assert Run(TABLES, INITIAL, [SEMICOLON]) == AFTER_SEMI;
    EndReduces();
    EndAccepts();
    StepKeepsInv(TABLES, AFTER_SEMI, END);
    assert Call(TABLES, AFTER_COMMAND, END) == ACCEPTED;
    assert Call(TABLES, AFTER_SEMI, END) == Call(TABLES, AFTER_COMMAND, END);
  }

  // ----- The same with a fallback, the wildcard and a word that is not its own token -----

  const QUERY: nat := 3

  const QUERY_WORD: Token := Token(QUERY, "query")
  const QUERY_COMMAND: Tree := Node(4, [Leaf(QUERY_WORD), Leaf(SEMICOLON)])
  const AFTER_QUERY: Config := Config([BASE, StackEntry(2, QUERY, Leaf(QUERY_WORD))], [Shifted(QUERY_WORD)])
  const AFTER_ANY: Config :=
    Config(AFTER_QUERY.stack + [StackEntry(1008, SEMI, Leaf(SEMICOLON))], AFTER_QUERY.trace + [Shifted(SEMICOLON)])
  const AFTER_EXPLAINED: Config :=
    Config([BASE, StackEntry(1, ECMD, QUERY_COMMAND)],
           AFTER_ANY.trace + [Reduced(4, [Leaf(QUERY_WORD), Leaf(SEMICOLON)])])
  const ACCEPTED_QUERY: Config := Config([BASE], AFTER_EXPLAINED.trace + [Accepted(0, [QUERY_COMMAND])])

  /** QUERY has no entry of its own and is shifted as the EXPLAIN that it falls back to. */
  lemma {:induction false} QueryShifts()
    ensures StepDefined(TABLES, INITIAL, QUERY_WORD) && Done(TABLES, INITIAL, QUERY_WORD)
    ensures Step(TABLES, INITIAL, QUERY_WORD) == AFTER_QUERY
  {
    assert ActionFor(TABLES, 0, QUERY) == 2;
  }

  /** After it any token is taken by the wildcard, even one with a part of its own elsewhere. */
  lemma {:induction false} AnyShifts()
    ensures StepDefined(TABLES, AFTER_QUERY, SEMICOLON) && Done(TABLES, AFTER_QUERY, SEMICOLON)
    ensures Step(TABLES, AFTER_QUERY, SEMICOLON) == AFTER_ANY
  {
    assert ActionFor(TABLES, 2, SEMI) == 676;
  }

  lemma {:induction false} EndReducesQuery()
    ensures StepDefined(TABLES, AFTER_ANY, END) && !Done(TABLES, AFTER_ANY, END)
    ensures Step(TABLES, AFTER_ANY, END) == AFTER_EXPLAINED
  {
    assert ActionFor(TABLES, 1008, 0) == 1008;
    assert Goto(TABLES, 0, ECMD) == 1;
    assert TopMinors(AFTER_ANY.stack, 2) == [Leaf(QUERY_WORD), Leaf(SEMICOLON)];
  }

  lemma {:induction false} EndAcceptsQuery()
    ensures StepDefined(TABLES, AFTER_EXPLAINED, END) && Done(TABLES, AFTER_EXPLAINED, END)
    ensures Step(TABLES, AFTER_EXPLAINED, END) == ACCEPTED_QUERY
  {
    assert ActionFor(TABLES, 1, 0) == 1004;
    assert Goto(TABLES, 0, INPUT) == YY_ACCEPT_ACTION;
    assert TopMinors(AFTER_EXPLAINED.stack, 1) == [QUERY_COMMAND];
  }

  lemma {:induction false} QueryRuns()
    requires Ready(TABLES, INITIAL)
    ensures Run(TABLES, INITIAL, [QUERY_WORD, SEMICOLON]) == AFTER_ANY
  {
    hide Step, StepDefined, Valid, NoSelfDerivation, Inv, Done;
    var tokens := [QUERY_WORD, SEMICOLON];
    QueryShifts();
    AnyShifts();
    assert tokens[..1] == [QUERY_WORD] && [QUERY_WORD][..0] == [];
    assert Run(TABLES, INITIAL, [QUERY_WORD]) == AFTER_QUERY;
  }

  lemma {:induction false} QueryEnds()
    requires Ready(TABLES, AFTER_ANY)
    ensures Call(TABLES, AFTER_ANY, END) == ACCEPTED_QUERY
  {
    hide Step, StepDefined, Valid, NoSelfDerivation, Inv, Done;
    EndReducesQuery();
    EndAcceptsQuery();
    StepKeepsInv(TABLES, AFTER_ANY, END);
    assert Call(TABLES, AFTER_EXPLAINED, END) == ACCEPTED_QUERY;
  }

  /** QUERY and a semicolon are accepted as EXPLAIN and any token. */
  lemma {:induction false} QueryIsAccepted()
    ensures Ready(TABLES, INITIAL) && AllTokens([QUERY_WORD, SEMICOLON])
    ensures Call(TABLES, Run(TABLES, INITIAL, [QUERY_WORD, SEMICOLON]), END) == ACCEPTED_QUERY
    ensures Derives(TABLES, [INPUT], [QUERY, SEMI])
  {
    hide Step, StepDefined, Valid, NoSelfDerivation, Run, Call, Derives;
    TablesAreValid();
    NothingDerivesItself();
    InitialInv(TABLES);
    QueryRuns();
    QueryEnds();
    AcceptedInput(TABLES, [QUERY_WORD, SEMICOLON], END);
    assert Codes([QUERY_WORD, SEMICOLON]) == [QUERY, SEMI];
  }
}
