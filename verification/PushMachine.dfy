/** The push-down automaton as a function on configurations, and what every step of it keeps. */
module PushMachine {
  import opened LemonTables
  import opened Grammar

  datatype StackEntry = StackEntry(stateno: nat, major: nat, minor: Tree)

  /** What the driver does to the rest of the program: the tokens it takes, the actions it runs on which
      values, the destructors it calls and the errors it reports.  An overflow raised by an empty rule
      drops the top value of the stack without a destructor; `lost` is that value.  `Discarded` is the
      destructor of a token that a syntax error was reported for. */
  datatype Event =
    | Shifted(token: Token)
    | Reduced(rule: nat, args: seq<Tree>)
    | Accepted(rule: nat, args: seq<Tree>)
    | Destroyed(value: Tree)
    | ShiftOverflow
    | ReduceOverflow(lost: Tree)
    | SyntaxError(token: Token)
    | Discarded(token: Token)

  datatype Config = Config(stack: seq<StackEntry>, trace: seq<Event>)

  const BASE: StackEntry := StackEntry(0, 0, Leaf(Token(0, "")))

  const INITIAL: Config := Config([BASE], [])

  function Top(c: Config): StackEntry
    requires 1 <= |c.stack|
  {
    c.stack[|c.stack|-1]
  }

  /** The values of the top n entries, the deepest first. */
  function TopMinors(stack: seq<StackEntry>, n: nat): seq<Tree>
    requires n <= |stack|
  {
    seq(n, i requires 0 <= i < n => stack[|stack| - n + i].minor)
  }

  /** The values of all entries above the base. */
  function Minors(stack: seq<StackEntry>): seq<Tree>
    requires 1 <= |stack|
  {
    TopMinors(stack, |stack| - 1)
  }

  /** Destructor calls when every entry above the base is popped, the top one first. */
  function Unwind(stack: seq<StackEntry>): seq<Event> {
    if |stack| <= 1 then [] else [Destroyed(stack[|stack|-1].minor)] + Unwind(stack[..|stack|-1])
  }

  /** One call for each of them, from the top down. */
  lemma {:induction false} UnwindsFromTop(stack: seq<StackEntry>, i: nat)
    requires i + 1 < |stack|
    ensures |Unwind(stack)| == |stack| - 1 && Unwind(stack)[i] == Destroyed(stack[|stack| - 1 - i].minor)
  {
    var rest := stack[..|stack|-1];
    if |stack| > 2 {
      UnwindsFromTop(rest, if i == 0 then 0 else i - 1);
    } else {
      assert Unwind(rest) == [];
    }
  }

  /** The stack overflows: the entries that are left are unwound down to the base, and it is reported. */
  function Overflowed(c: Config, left: seq<StackEntry>, report: Event): Config
    requires 1 <= |c.stack|
  {
    Config([c.stack[0]], c.trace + Unwind(left) + [report])
  }

  function PushedToken(c: Config, act: nat, token: Token): Config {
    Config(c.stack + [StackEntry(StackCode(act), token.code, Leaf(token))], c.trace + [Shifted(token)])
  }

  /** A shift on a stack that has room for so many entries. */
  function ShiftWithin(c: Config, act: nat, token: Token, room: nat): Config
    requires 1 <= |c.stack|
  {
    if |c.stack| >= room then Overflowed(c, c.stack, ShiftOverflow) else PushedToken(c, act, token)
  }

  function ShiftStep(c: Config, act: nat, token: Token): Config
    requires 1 <= |c.stack|
  {
    ShiftWithin(c, act, token, YYSTACKDEPTH)
  }

  /** The values that a reduction by a rule takes off the stack. */
  function Handle(t: Tables, stack: seq<StackEntry>, rule: nat): seq<Tree>
    requires rule < |t.rules| && |t.rules[rule].rhs| < |stack|
  {
    TopMinors(stack, |t.rules[rule].rhs|)
  }

  /** No assert of a reduction fails: enough entries, a goto on the left-hand side where they end, and
      accept only when they end at the base. */
  predicate Reducible(t: Tables, stack: seq<StackEntry>, rule: nat)
    requires |t.lookahead| == |t.action|
  {
    && rule < |t.rules|
    && |t.rules[rule].rhs| < |stack|
    && var below := |stack| - 1 - |t.rules[rule].rhs|;
      && GotoDefined(t, stack[below].stateno, t.rules[rule].lhs)
      && var act := Goto(t, stack[below].stateno, t.rules[rule].lhs);
        act <= YY_MAX_SHIFTREDUCE || (act == YY_ACCEPT_ACTION && below == 0)
  }

  /** The top n entries are replaced by the left-hand side of a rule, whose value is made of theirs. */
  function Replaced(c: Config, n: nat, rule: nat, lhs: nat, code: nat): Config
    requires n < |c.stack|
  {
    var args := TopMinors(c.stack, n);
    Config(c.stack[..|c.stack|-n] + [StackEntry(code, lhs, Node(rule, args))], c.trace + [Reduced(rule, args)])
  }

  /** The top n entries go, and the parser accepts. */
  function AcceptedBy(c: Config, n: nat, rule: nat): Config
    requires n < |c.stack|
  {
    Config(c.stack[..|c.stack|-n], c.trace + [Accepted(rule, TopMinors(c.stack, n))])
  }

  /** The goto of a reduction. */
  function GotoOf(t: Tables, c: Config, rule: nat): nat
    requires |t.lookahead| == |t.action| && Reducible(t, c.stack, rule)
  {
    Goto(t, c.stack[|c.stack| - 1 - |t.rules[rule].rhs|].stateno, t.rules[rule].lhs)
  }

  /** What a reduction leaves when there is room for its result. */
  function Made(t: Tables, c: Config, rule: nat): Config
    requires |t.lookahead| == |t.action| && Reducible(t, c.stack, rule)
  {
    var lhs, n, act := t.rules[rule].lhs, |t.rules[rule].rhs|, GotoOf(t, c, rule);
    if act <= YY_MAX_SHIFTREDUCE then Replaced(c, n, rule, lhs, StackCode(act)) else AcceptedBy(c, n, rule)
  }

  /** An empty rule needs an entry more than there is room for. */
  predicate Overfills(t: Tables, c: Config, rule: nat, room: nat)
    requires rule < |t.rules|
  {
    t.rules[rule].rhs == [] && |c.stack| >= room
  }

  function ReduceWithin(t: Tables, c: Config, rule: nat, room: nat): Config
    requires |t.lookahead| == |t.action| && Reducible(t, c.stack, rule)
  {
    if Overfills(t, c, rule, room) then Overflowed(c, c.stack[..|c.stack|-1], ReduceOverflow(Top(c).minor))
    else Made(t, c, rule)
  }

  function ReduceStep(t: Tables, c: Config, rule: nat): Config
    requires |t.lookahead| == |t.action| && Reducible(t, c.stack, rule)
  {
    ReduceWithin(t, c, rule, YYSTACKDEPTH)
  }

  // ----- When the tables belong to the grammar -----

  /** The items of a stack code.  A pending reduce code is a state that only has its complete item. */
  function ItemsOf(t: Tables, code: nat): set<Item> {
    if code < |t.items| then t.items[code]
    else if YY_MIN_REDUCE <= code && code - YY_MIN_REDUCE < |t.rules|
    then {Item(code - YY_MIN_REDUCE, |t.rules[code - YY_MIN_REDUCE].rhs|)}
    else {}
  }

  ghost predicate ItemFollows(t: Tables, state: nat, x: nat, it: Item)
    requires state < |t.items|
  {
    it.dot > 0 ==>
      && it.rule < |t.rules|
      && it.dot <= |t.rules[it.rule].rhs|
      && x in t.rules[it.rule].rhs[it.dot - 1]
      && Item(it.rule, it.dot - 1) in t.items[state]
  }

  /** Going from a state over symbol x to a stack code moves the dots of items of that state over x. */
  ghost predicate Follows(t: Tables, state: nat, x: nat, code: nat) {
    && state < |t.items|
    && forall it :: it in ItemsOf(t, code) ==> ItemFollows(t, state, x, it)
  }

  /** A code that may lie above the base entry. */
  ghost predicate AboveBase(t: Tables, code: nat) {
    || 0 < code < |t.items|
    || (YY_MIN_REDUCE <= code && code - YY_MIN_REDUCE < |t.rules| && t.rules[code - YY_MIN_REDUCE].rhs != [])
  }

  ghost predicate PushOk(t: Tables, state: nat, x: nat, act: nat) {
    act <= YY_MAX_SHIFTREDUCE && AboveBase(t, StackCode(act)) && Follows(t, state, x, StackCode(act))
  }

  ghost predicate ReduceOk(t: Tables, state: nat, act: nat) {
    && YY_MIN_REDUCE <= act && act - YY_MIN_REDUCE < |t.rules|
    && state < |t.items|
    && Item(act - YY_MIN_REDUCE, |t.rules[act - YY_MIN_REDUCE].rhs|) in t.items[state]
  }

  ghost predicate GotoOk(t: Tables, state: nat, lhs: nat)
    requires |t.lookahead| == |t.action|
  {
    && GotoDefined(t, state, lhs)
    && var act := Goto(t, state, lhs);
      || (act == YY_ACCEPT_ACTION && state == 0 && lhs == t.start)
      || exists x :: ActsAs(t, lhs, x) && PushOk(t, state, x, act)
  }

  /** The arrays are those of an LR automaton of the grammar. */
  ghost predicate Valid(t: Tables) {
    && WellFormed(t)
    && (forall it :: it in t.items[0] ==> it.dot == 0)
    && (forall s, x :: 0 <= s < |t.items| && 0 <= x < YYNOCODE && Stored(t, t.shiftOfst[s], x) ==>
          var act := Entry(t, t.shiftOfst[s], x);
          act == YY_ERROR_ACTION || ReduceOk(t, s, act) || PushOk(t, s, x, act))
    && (forall s :: 0 <= s < |t.items| ==>
          t.default[s] == YY_ERROR_ACTION || ReduceOk(t, s, t.default[s]))
    && (forall s, r :: 0 <= s < |t.items| && 0 <= r < |t.rules| && Item(r, 0) in t.items[s] ==>
          GotoOk(t, s, t.rules[r].lhs))
  }

  // ----- The invariant of the machine -----

  ghost predicate Linked(t: Tables, below: StackEntry, e: StackEntry) {
    && below.stateno < |t.items|
    && AboveBase(t, e.stateno)
    && (exists x :: ActsAs(t, e.major, x) && Follows(t, below.stateno, x, e.stateno))
    && Root(t, e.minor) == e.major
    && Conforms(t, e.minor)
  }

  ghost predicate LinkedAt(t: Tables, stack: seq<StackEntry>, i: nat) {
    0 < i < |stack| ==> Linked(t, stack[i-1], stack[i])
  }

  ghost predicate Chained(t: Tables, stack: seq<StackEntry>) {
    && 1 <= |stack|
    && stack[0] == BASE
    && forall i: nat :: LinkedAt(t, stack, i)
  }

  function LiveAfter(live: seq<Token>, e: Event): seq<Token> {
    match e
    case Shifted(token) => live + [token]
    case Accepted(_, _) => []
    case ShiftOverflow => []
    case ReduceOverflow(_) => []
    case _ => live
  }

  /** The tokens taken since the parser was last at its base by an accept or an overflow. */
  function Live(trace: seq<Event>): seq<Token> {
    if trace == [] then [] else LiveAfter(Live(trace[..|trace|-1]), trace[|trace|-1])
  }

  /** Base entry and links are in order, and the forest on the stack has the live tokens as yield. */
  ghost predicate Coherent(t: Tables, c: Config) {
    Chained(t, c.stack) && Yields(Minors(c.stack)) == Live(c.trace)
  }

  /** So it is, and the stack is within its fixed depth. */
  ghost predicate Inv(t: Tables, c: Config) {
    Coherent(t, c) && |c.stack| <= YYSTACKDEPTH
  }

  /** Every accept so far was of a sentence of the grammar. */
  ghost predicate AcceptsSound(t: Tables, trace: seq<Event>) {
    forall i :: 0 <= i < |trace| && trace[i].Accepted? ==> Derives(t, [t.start], Codes(Live(trace[..i])))
  }

  // ----- A complete item on top: the handle is on the stack -----

  lemma {:induction false} HandleOnStack(t: Tables, stack: seq<StackEntry>, k: nat, rule: nat, dot: nat)
    requires Valid(t) && Chained(t, stack) && k < |stack|
    requires Item(rule, dot) in ItemsOf(t, stack[k].stateno) && rule < |t.rules| && dot <= |t.rules[rule].rhs|
    ensures dot <= k && Item(rule, 0) in ItemsOf(t, stack[k - dot].stateno)
    ensures forall j :: 0 <= j < dot ==> ActsAsOneOf(t, stack[k - dot + 1 + j].major, t.rules[rule].rhs[j])
    decreases dot
  {
    if dot > 0 {
      assert k > 0;
      assert LinkedAt(t, stack, k);
      var x :| ActsAs(t, stack[k].major, x) && Follows(t, stack[k-1].stateno, x, stack[k].stateno);
      assert ItemFollows(t, stack[k-1].stateno, x, Item(rule, dot));
      HandleOnStack(t, stack, k - 1, rule, dot - 1);
      assert ActsAsOneOf(t, stack[k].major, t.rules[rule].rhs[dot - 1]);
    }
  }

  /** State 0 is only at the base. */
  lemma {:induction false} NotBase(t: Tables, stack: seq<StackEntry>, k: nat)
    requires Chained(t, stack) && 0 < k < |stack|
    ensures stack[k].stateno != 0
  {
    assert LinkedAt(t, stack, k);
  }

  /** The asserts of the goto lookup cannot fail, and the handle makes a conforming node. */
  lemma {:induction false} CanReduce(t: Tables, c: Config, rule: nat)
    requires Valid(t) && Coherent(t, c) && rule < |t.rules|
    requires Item(rule, |t.rules[rule].rhs|) in ItemsOf(t, Top(c).stateno)
    ensures Reducible(t, c.stack, rule)
    ensures Goto(t, c.stack[|c.stack| - 1 - |t.rules[rule].rhs|].stateno, t.rules[rule].lhs) > YY_MAX_SHIFTREDUCE
            ==> t.rules[rule].lhs == t.start
    ensures var s := c.stack[|c.stack| - 1 - |t.rules[rule].rhs|].stateno;
            s < |t.items| && GotoOk(t, s, t.rules[rule].lhs)
    ensures Conforms(t, Node(rule, Handle(t, c.stack, rule)))
  {
    var n, top := |t.rules[rule].rhs|, |c.stack| - 1;
    HandleOnStack(t, c.stack, top, rule, n);
    assert LinkedAt(t, c.stack, top - n) && LinkedAt(t, c.stack, top - n + 1);
    if n < top {
      NotBase(t, c.stack, top - n);
    }
    var kids := Handle(t, c.stack, rule);
    forall i | 0 <= i < n
      ensures Conforms(t, kids[i]) && ActsAsOneOf(t, Root(t, kids[i]), t.rules[rule].rhs[i])
    {
      assert LinkedAt(t, c.stack, top - n + 1 + i);
    }
  }

  lemma {:induction false} PushKeepsChain(t: Tables, rest: seq<StackEntry>, e: StackEntry)
    requires Chained(t, rest) && Linked(t, rest[|rest|-1], e)
    ensures Chained(t, rest + [e])
    ensures Minors(rest + [e]) == Minors(rest) + [e.minor]
  {
    var stack := rest + [e];
    forall i: nat ensures LinkedAt(t, stack, i) {
      assert LinkedAt(t, rest, i);
    }
  }

  lemma {:induction false} PopKeepsChain(t: Tables, stack: seq<StackEntry>, n: nat)
    requires Chained(t, stack) && n < |stack|
    ensures Chained(t, stack[..|stack|-n])
    ensures Minors(stack) == Minors(stack[..|stack|-n]) + TopMinors(stack, n)
  {
    var rest := stack[..|stack|-n];
    forall i: nat ensures LinkedAt(t, rest, i) {
      assert LinkedAt(t, stack, i);
    }
  }

  lemma {:induction false} LiveAppend(trace: seq<Event>, e: Event)
    ensures Live(trace + [e]) == LiveAfter(Live(trace), e)
  {
    assert (trace + [e])[..|trace|] == trace;
  }

  lemma {:induction false} OverflowCoheres(t: Tables, c: Config, left: seq<StackEntry>, report: Event)
    requires Chained(t, c.stack) && (report.ShiftOverflow? || report.ReduceOverflow?)
    ensures Coherent(t, Overflowed(c, left, report))
  {
    LiveAppend(c.trace + Unwind(left), report);
    assert Minors([c.stack[0]]) == [];
  }

  lemma {:induction false} PushedCoheres(t: Tables, c: Config, act: nat, token: Token, x: nat)
    requires Coherent(t, c) && token.code < YYNTERMINAL
    requires Top(c).stateno < |t.items| && ActsAs(t, token.code, x) && PushOk(t, Top(c).stateno, x, act)
    ensures Coherent(t, PushedToken(c, act, token))
  {
    PushKeepsChain(t, c.stack, StackEntry(StackCode(act), token.code, Leaf(token)));
    YieldsPush(Minors(c.stack), Leaf(token));
    LiveAppend(c.trace, Shifted(token));
  }

  /** A shift keeps the configuration coherent, whatever room there is. */
  lemma {:induction false} ShiftCoheres(t: Tables, c: Config, act: nat, token: Token, x: nat, room: nat)
    requires Coherent(t, c) && token.code < YYNTERMINAL
    requires Top(c).stateno < |t.items| && ActsAs(t, token.code, x) && PushOk(t, Top(c).stateno, x, act)
    ensures Coherent(t, ShiftWithin(c, act, token, room))
  {
    if |c.stack| < room {
      PushedCoheres(t, c, act, token, x);
    } else {
      OverflowCoheres(t, c, c.stack, ShiftOverflow);
    }
  }

  lemma {:induction false} ReplacedYields(t: Tables, c: Config, n: nat, rule: nat, lhs: nat, code: nat)
    requires Chained(t, c.stack) && n < |c.stack|
    ensures Yields(Minors(Replaced(c, n, rule, lhs, code).stack)) == Yields(Minors(c.stack))
  {
    var rest, args := c.stack[..|c.stack|-n], TopMinors(c.stack, n);
    PopKeepsChain(t, c.stack, n);
    YieldsConcat(Minors(rest), args);
    YieldsPush(Minors(rest), Node(rule, args));
    assert Minors(rest + [StackEntry(code, lhs, Node(rule, args))]) == Minors(rest) + [Node(rule, args)];
  }

  lemma {:induction false} ReplacedCoheres(t: Tables, c: Config, rule: nat, code: nat)
    requires Coherent(t, c) && rule < |t.rules| && |t.rules[rule].rhs| < |c.stack|
    requires var n := |t.rules[rule].rhs|;
             Linked(t, c.stack[|c.stack|-1-n], StackEntry(code, t.rules[rule].lhs, Node(rule, TopMinors(c.stack, n))))
    ensures Coherent(t, Replaced(c, |t.rules[rule].rhs|, rule, t.rules[rule].lhs, code))
  {
    var n, lhs := |t.rules[rule].rhs|, t.rules[rule].lhs;
    var args := TopMinors(c.stack, n);
    PopKeepsChain(t, c.stack, n);
    PushKeepsChain(t, c.stack[..|c.stack|-n], StackEntry(code, lhs, Node(rule, args)));
    ReplacedYields(t, c, n, rule, lhs, code);
    LiveAppend(c.trace, Reduced(rule, args));
  }

  lemma {:induction false} AcceptedCoheres(t: Tables, c: Config, rule: nat)
    requires Coherent(t, c)
    ensures Coherent(t, AcceptedBy(c, |c.stack| - 1, rule))
  {
    PopKeepsChain(t, c.stack, |c.stack| - 1);
    LiveAppend(c.trace, Accepted(rule, TopMinors(c.stack, |c.stack| - 1)));
  }

  /** A reduction that has room for its result leads to a coherent configuration, whatever the depth. */
  lemma {:induction false} MadeCoheres(t: Tables, c: Config, rule: nat)
    requires Valid(t) && Coherent(t, c) && rule < |t.rules|
    requires Item(rule, |t.rules[rule].rhs|) in ItemsOf(t, Top(c).stateno)
    ensures Reducible(t, c.stack, rule) && Coherent(t, Made(t, c, rule))
  {
    hide Coherent, Linked, ItemsOf, ReduceOk, GotoOk, PushOk, Conforms;
    CanReduce(t, c, rule);
    var act := GotoOf(t, c, rule);
    if act <= YY_MAX_SHIFTREDUCE {
      GotoLinks(t, c, rule);
      ReplacedCoheres(t, c, rule, StackCode(act));
    } else {
      AcceptedCoheres(t, c, rule);
    }
  }

  lemma {:induction false} GotoLinks(t: Tables, c: Config, rule: nat)
    requires Valid(t) && Coherent(t, c) && Reducible(t, c.stack, rule)
    requires Item(rule, |t.rules[rule].rhs|) in ItemsOf(t, Top(c).stateno)
    requires GotoOf(t, c, rule) <= YY_MAX_SHIFTREDUCE
    ensures var lhs, n := t.rules[rule].lhs, |t.rules[rule].rhs|;
      Linked(t, c.stack[|c.stack|-1-n],
             StackEntry(StackCode(GotoOf(t, c, rule)), lhs, Node(rule, TopMinors(c.stack, n))))
  {
    CanReduce(t, c, rule);
  }

  /** So does a reduction. */
  lemma {:induction false} ReduceCoheres(t: Tables, c: Config, rule: nat, room: nat)
    requires Valid(t) && Coherent(t, c) && rule < |t.rules|
    requires Item(rule, |t.rules[rule].rhs|) in ItemsOf(t, Top(c).stateno)
    ensures Reducible(t, c.stack, rule) && Coherent(t, ReduceWithin(t, c, rule, room))
  {
    if Overfills(t, c, rule, room) {
      CanReduce(t, c, rule);
      OverflowCoheres(t, c, c.stack[..|c.stack|-1], ReduceOverflow(Top(c).minor));
    } else {
      MadeCoheres(t, c, rule);
    }
  }
}
