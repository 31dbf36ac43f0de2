/** Where every value on the parser stack ends: in one reduction, in a destructor call, or still on the stack.
    Only an overflow raised by an empty rule loses one.

    The books are kept for one value `v` at a time: how often it was pushed, used by a reduction,
    destroyed and lost.  The theorems are for every v.
 */
module Conservation {
  import opened LemonTables
  import opened Grammar
  import opened ForestBound
  import opened PushMachine
  import opened ParserRuns

  /** How often v occurs among some values. */
  function Count(v: Tree, trees: seq<Tree>): nat {
    if trees == [] then 0 else Count(v, trees[..|trees|-1]) + Is(v, trees[|trees|-1])
  }

  function Is(v: Tree, tree: Tree): nat {
    if tree == v then 1 else 0
  }

  lemma {:induction false} CountConcat(v: Tree, a: seq<Tree>, b: seq<Tree>)
    ensures Count(v, a + b) == Count(v, a) + Count(v, b)
  {
    if b == [] {
      assert a + b == a;
    } else {
      CountConcat(v, a, b[..|b|-1]);
      assert (a + b)[..|a + b|-1] == a + b[..|b|-1];
    }
  }

  lemma {:induction false} CountIsMultiplicity(v: Tree, trees: seq<Tree>)
    ensures Count(v, trees) == multiset(trees)[v]
  {
    if trees != [] {
      CountIsMultiplicity(v, trees[..|trees|-1]);
      assert trees == trees[..|trees|-1] + [trees[|trees|-1]];
    }
  }

  function PushedBy(v: Tree, e: Event): nat {
    match e
    case Shifted(token) => Is(v, Leaf(token))
    case Reduced(rule, args) => Is(v, Node(rule, args))
    case _ => 0
  }

  function UsedBy(v: Tree, e: Event): nat {
    match e
    case Reduced(_, args) => Count(v, args)
    case Accepted(_, args) => Count(v, args)
    case _ => 0
  }

  function DestroyedBy(v: Tree, e: Event): nat {
    if e.Destroyed? then Is(v, e.value) else 0
  }

  function LostBy(v: Tree, e: Event): nat {
    if e.ReduceOverflow? then Is(v, e.lost) else 0
  }

  /** Sum over a trace of what each event adds to one of the books. */
  function Sum(v: Tree, book: (Tree, Event) -> nat, trace: seq<Event>): nat {
    if trace == [] then 0 else Sum(v, book, trace[..|trace|-1]) + book(v, trace[|trace|-1])
  }

  function Pushed(v: Tree, trace: seq<Event>): nat { Sum(v, PushedBy, trace) }

  function Used(v: Tree, trace: seq<Event>): nat { Sum(v, UsedBy, trace) }

  function Destructed(v: Tree, trace: seq<Event>): nat { Sum(v, DestroyedBy, trace) }

  function Lost(v: Tree, trace: seq<Event>): nat { Sum(v, LostBy, trace) }

  /** Every time that v was pushed is accounted for. */
  predicate Balanced(v: Tree, trace: seq<Event>, onStack: nat) {
    Pushed(v, trace) == onStack + Used(v, trace) + Destructed(v, trace) + Lost(v, trace)
  }

  predicate Conserved(v: Tree, c: Config)
    requires 1 <= |c.stack|
  {
    Balanced(v, c.trace, Count(v, Minors(c.stack)))
  }

  lemma {:induction false} SumAppend(v: Tree, book: (Tree, Event) -> nat, trace: seq<Event>, e: Event)
    ensures Sum(v, book, trace + [e]) == Sum(v, book, trace) + book(v, e)
  {
    assert (trace + [e])[..|trace|] == trace;
  }

  lemma {:induction false} BooksAppend(v: Tree, trace: seq<Event>, e: Event)
    ensures Pushed(v, trace + [e]) == Pushed(v, trace) + PushedBy(v, e)
    ensures Used(v, trace + [e]) == Used(v, trace) + UsedBy(v, e)
    ensures Destructed(v, trace + [e]) == Destructed(v, trace) + DestroyedBy(v, e)
    ensures Lost(v, trace + [e]) == Lost(v, trace) + LostBy(v, e)
  {
    SumAppend(v, PushedBy, trace, e);
    SumAppend(v, UsedBy, trace, e);
    SumAppend(v, DestroyedBy, trace, e);
    SumAppend(v, LostBy, trace, e);
  }

  lemma {:induction false} MinorsSplit(v: Tree, stack: seq<StackEntry>, n: nat)
    requires n < |stack|
    ensures Count(v, Minors(stack)) == Count(v, Minors(stack[..|stack|-n])) + Count(v, TopMinors(stack, n))
  {
    assert Minors(stack) == Minors(stack[..|stack|-n]) + TopMinors(stack, n);
    CountConcat(v, Minors(stack[..|stack|-n]), TopMinors(stack, n));
  }

  lemma {:induction false} MinorsPush(v: Tree, rest: seq<StackEntry>, e: StackEntry)
    requires 1 <= |rest|
    ensures Count(v, Minors(rest + [e])) == Count(v, Minors(rest)) + Is(v, e.minor)
  {
    assert Minors(rest + [e])[..|rest| - 1] == Minors(rest);
  }

  lemma {:induction false} MinorsPop(v: Tree, stack: seq<StackEntry>)
    requires 2 <= |stack|
    ensures Count(v, Minors(stack)) == Count(v, Minors(stack[..|stack|-1])) + Is(v, stack[|stack|-1].minor)
  {
    assert Minors(stack)[..|stack| - 2] == Minors(stack[..|stack|-1]);
  }

  lemma {:induction false} BooksUnwind(v: Tree, trace: seq<Event>, stack: seq<StackEntry>)
    requires 1 <= |stack|
    ensures var trace' := trace + Unwind(stack);
      && Pushed(v, trace') == Pushed(v, trace)
      && Used(v, trace') == Used(v, trace)
      && Destructed(v, trace') == Destructed(v, trace) + Count(v, Minors(stack))
      && Lost(v, trace') == Lost(v, trace)
    decreases |stack|
  {
    if |stack| == 1 {
      assert trace + Unwind(stack) == trace;
      assert Minors(stack) == [];
    } else {
      var rest, e := stack[..|stack|-1], Destroyed(stack[|stack|-1].minor);
      assert trace + ([e] + Unwind(rest)) == (trace + [e]) + Unwind(rest);
      BooksUnwind(v, trace + [e], rest);
      BooksAppend(v, trace, e);
      MinorsPop(v, stack);
    }
  }

  lemma {:induction false} OverflowConserves(v: Tree, c: Config, left: seq<StackEntry>, report: Event)
    requires 1 <= |left| && 1 <= |c.stack|
    requires report == ShiftOverflow || report.ReduceOverflow?
    requires Balanced(v, c.trace, Count(v, Minors(left)) + LostBy(v, report))
    ensures Conserved(v, Overflowed(c, left, report))
  {
    BooksUnwind(v, c.trace, left);
    BooksAppend(v, c.trace + Unwind(left), report);
    assert Minors([c.stack[0]]) == [];
  }

  lemma {:induction false} ShiftConserves(v: Tree, c: Config, act: nat, token: Token, room: nat)
    requires 1 <= |c.stack| && Conserved(v, c)
    ensures Conserved(v, ShiftWithin(c, act, token, room))
  {
    if |c.stack| >= room {
      OverflowConserves(v, c, c.stack, ShiftOverflow);
    } else {
      BooksAppend(v, c.trace, Shifted(token));
      MinorsPush(v, c.stack, StackEntry(StackCode(act), token.code, Leaf(token)));
    }
  }

  lemma {:induction false} ReplacedConserves(v: Tree, c: Config, n: nat, rule: nat, lhs: nat, code: nat)
    requires n < |c.stack| && Conserved(v, c)
    ensures Conserved(v, Replaced(c, n, rule, lhs, code))
  {
    var rest, args := c.stack[..|c.stack|-n], TopMinors(c.stack, n);
    MinorsSplit(v, c.stack, n);
    MinorsPush(v, rest, StackEntry(code, lhs, Node(rule, args)));
    BooksAppend(v, c.trace, Reduced(rule, args));
  }

  lemma {:induction false} AcceptedConserves(v: Tree, c: Config, n: nat, rule: nat)
    requires n < |c.stack| && Conserved(v, c)
    ensures Conserved(v, AcceptedBy(c, n, rule))
  {
    MinorsSplit(v, c.stack, n);
    BooksAppend(v, c.trace, Accepted(rule, TopMinors(c.stack, n)));
  }

  lemma {:induction false} EmptyRuleOverflowConserves(v: Tree, c: Config)
    requires 2 <= |c.stack| && Conserved(v, c)
    ensures Conserved(v, Overflowed(c, c.stack[..|c.stack|-1], ReduceOverflow(c.stack[|c.stack|-1].minor)))
  {
    MinorsPop(v, c.stack);
    OverflowConserves(v, c, c.stack[..|c.stack|-1], ReduceOverflow(c.stack[|c.stack|-1].minor));
  }

  lemma {:induction false} RejectedConserves(v: Tree, c: Config, token: Token)
    requires 1 <= |c.stack| && Conserved(v, c)
    ensures Conserved(v, Rejected(c, token))
  {
    BooksAppend(v, c.trace, SyntaxError(token));
    BooksAppend(v, c.trace + [SyntaxError(token)], Discarded(token));
  }

  lemma {:induction false} StepConserves(v: Tree, t: Tables, c: Config, token: Token, room: nat)
    requires StepDefined(t, c, token) && Conserved(v, c) && 2 <= room
    ensures 1 <= |StepWithin(t, c, token, room).stack| && Conserved(v, StepWithin(t, c, token, room))
  {
    hide Conserved;
    match NextMove(t, c, token) {
      case Shift(act) => ShiftConserves(v, c, act, token, room);
      case Reduce(rule) =>
        if Overfills(t, c, rule, room) {
          EmptyRuleOverflowConserves(v, c);
        } else if GotoOf(t, c, rule) <= YY_MAX_SHIFTREDUCE {
          ReplacedConserves(v, c, |t.rules[rule].rhs|, rule, t.rules[rule].lhs, StackCode(GotoOf(t, c, rule)));
        } else {
          AcceptedConserves(v, c, |t.rules[rule].rhs|, rule);
        }
      case Fail => RejectedConserves(v, c, token);
    }
  }

  /** Wherever the driver can get, with any valid tables: each time a value was pushed, it is still on the
      stack, or one reduction used it, or it was destroyed once, or it was lost. */
  lemma {:induction false} ReachedConserves(v: Tree, t: Tables, rounds: seq<Token>)
    requires Valid(t) && AllTokens(rounds)
    ensures Conserved(v, Reached(t, rounds))
  {
    var P := (c: Config) => 1 <= |c.stack| && Conserved(v, c);
    forall c: Config, token: Token | Inv(t, c) && token.code < YYNTERMINAL && StepDefined(t, c, token) && P(c)
      ensures P(Step(t, c, token))
    {
      StepConserves(v, t, c, token, YYSTACKDEPTH);
    }
    assert Minors(INITIAL.stack) == [];
    ReachedKeeps(t, P, rounds);
  }

  // ----- When a value is lost -----

  /** The next step reduces by an empty rule, and the stack is full. */
  predicate OverloadsWithin(t: Tables, c: Config, token: Token, room: nat)
    requires StepDefined(t, c, token)
  {
    NextMove(t, c, token).Reduce? && Overfills(t, c, NextMove(t, c, token).rule, room)
  }

  predicate Overloads(t: Tables, c: Config, token: Token)
    requires StepDefined(t, c, token)
  {
    OverloadsWithin(t, c, token, YYSTACKDEPTH)
  }

  /** What the next step is about to lose. */
  function StepLoss(t: Tables, c: Config, token: Token): seq<Tree>
    requires StepDefined(t, c, token)
  {
    if Overloads(t, c, token) then [Top(c).minor] else []
  }

  lemma {:induction false} CountOne(v: Tree, tree: Tree)
    ensures Count(v, [tree]) == Is(v, tree) && Count(v, []) == 0
  {
    assert [tree][..0] == [];
  }

  lemma {:induction false} UnwindLosesNothing(v: Tree, trace: seq<Event>, stack: seq<StackEntry>)
    ensures Lost(v, trace + Unwind(stack)) == Lost(v, trace)
  {
    if |stack| >= 1 {
      BooksUnwind(v, trace, stack);
    } else {
      assert trace + Unwind(stack) == trace;
    }
  }

  lemma {:induction false} OverflowLoses(v: Tree, c: Config, left: seq<StackEntry>, report: Event)
    requires 1 <= |c.stack|
    ensures Lost(v, Overflowed(c, left, report).trace) == Lost(v, c.trace) + LostBy(v, report)
  {
    UnwindLosesNothing(v, c.trace, left);
    BooksAppend(v, c.trace + Unwind(left), report);
  }

  lemma {:induction false} ReduceLoses(v: Tree, t: Tables, c: Config, rule: nat, room: nat)
    requires |t.lookahead| == |t.action| && 1 <= |c.stack| && Reducible(t, c.stack, rule)
    ensures Lost(v, ReduceWithin(t, c, rule, room).trace)
            == Lost(v, c.trace) + if Overfills(t, c, rule, room) then Is(v, Top(c).minor) else 0
  {
    hide Sum, Count, Unwind;
    var args := TopMinors(c.stack, |t.rules[rule].rhs|);
    if Overfills(t, c, rule, room) {
      OverflowLoses(v, c, c.stack[..|c.stack|-1], ReduceOverflow(Top(c).minor));
    } else if GotoOf(t, c, rule) <= YY_MAX_SHIFTREDUCE {
      BooksAppend(v, c.trace, Reduced(rule, args));
    } else {
      BooksAppend(v, c.trace, Accepted(rule, args));
    }
  }

  lemma {:induction false} StepLosesWithin(v: Tree, t: Tables, c: Config, token: Token, room: nat)
    requires StepDefined(t, c, token)
    ensures Lost(v, StepWithin(t, c, token, room).trace)
            == Lost(v, c.trace) + if OverloadsWithin(t, c, token, room) then Is(v, Top(c).minor) else 0
  {
    match NextMove(t, c, token) {
      case Shift(act) =>
        if |c.stack| >= room {
          OverflowLoses(v, c, c.stack, ShiftOverflow);
        } else {
          BooksAppend(v, c.trace, Shifted(token));
        }
      case Reduce(rule) => ReduceLoses(v, t, c, rule, room);
      case Fail =>
        BooksAppend(v, c.trace, SyntaxError(token));
        BooksAppend(v, c.trace + [SyntaxError(token)], Discarded(token));
    }
  }

  /** A step loses the value on top exactly if it reduces by an empty rule at the full depth, and no other
      value ever. */
  lemma {:induction false} StepLosesExactly(v: Tree, t: Tables, c: Config, token: Token)
    requires StepDefined(t, c, token)
    ensures Lost(v, Step(t, c, token).trace) == Lost(v, c.trace) + Count(v, StepLoss(t, c, token))
  {
    CountOne(v, Top(c).minor);
    StepLosesWithin(v, t, c, token, YYSTACKDEPTH);
  }

  /** What a call is about to lose: it reduces until it is done or overloads the stack. */
  ghost function CallLoss(t: Tables, c: Config, token: Token): seq<Tree>
    requires Ready(t, c) && token.code < YYNTERMINAL
    decreases Remaining(t, c)
  {
    StepKeepsInv(t, c, token);
    if Done(t, c, token) then StepLoss(t, c, token)
    else StepAddsNode(t, c, token); CallLoss(t, Step(t, c, token), token)
  }

  lemma {:induction false} CallLosesExactly(v: Tree, t: Tables, c: Config, token: Token)
    requires Ready(t, c) && token.code < YYNTERMINAL
    ensures Lost(v, Call(t, c, token).trace) == Lost(v, c.trace) + Count(v, CallLoss(t, c, token))
    decreases Remaining(t, c)
  {
    StepKeepsInv(t, c, token);
    StepLosesExactly(v, t, c, token);
    if !Done(t, c, token) {
      StepAddsNode(t, c, token);
      OverloadEnds(t, c, token);
      CallLosesExactly(v, t, Step(t, c, token), token);
    }
  }

  /** An overload ends the call. */
  lemma {:induction false} OverloadEnds(t: Tables, c: Config, token: Token)
    requires 1 <= |c.stack| && StepDefined(t, c, token) && !Done(t, c, token)
    ensures StepLoss(t, c, token) == [] && Count(Top(c).minor, []) == 0
  {
  }

  /** Freeing the parser: pop every entry above the base, with its destructor. */
  function Freed(c: Config): Config
    requires 1 <= |c.stack|
  {
    Config([c.stack[0]], c.trace + Unwind(c.stack))
  }

  ghost predicate AllAccounted(v: Tree, trace: seq<Event>) {
    Pushed(v, trace) == Used(v, trace) + Destructed(v, trace)
  }

  /** What the calls of a run lose, one after the other, each told from the configuration it begins in. */
  ghost function RunLoss(t: Tables, tokens: seq<Token>): seq<Tree>
    requires Valid(t) && NoSelfDerivation(t) && AllTokens(tokens)
  {
    if tokens == [] then []
    else
      var front, last := tokens[..|tokens|-1], tokens[|tokens|-1];
      RunLoss(t, front) + CallLoss(t, Run(t, INITIAL, front), last)
  }

  lemma {:induction false} CountPositive(v: Tree, trees: seq<Tree>)
    ensures Count(v, trees) > 0 <==> v in trees
  {
    if trees != [] {
      CountPositive(v, trees[..|trees|-1]);
      assert trees == trees[..|trees|-1] + [trees[|trees|-1]];
    }
  }

  lemma {:induction false} RunLosesExactly(v: Tree, t: Tables, tokens: seq<Token>)
    requires Valid(t) && NoSelfDerivation(t) && AllTokens(tokens)
    ensures Lost(v, Run(t, INITIAL, tokens).trace) == Count(v, RunLoss(t, tokens))
  {
    if tokens != [] {
      var front, last := tokens[..|tokens|-1], tokens[|tokens|-1];
      RunLosesExactly(v, t, front);
      CallLosesExactly(v, t, Run(t, INITIAL, front), last);
      CountConcat(v, RunLoss(t, front), CallLoss(t, Run(t, INITIAL, front), last));
    }
  }

  /** After the parser is freed, a value was used or destroyed exactly as often as it was pushed, if and only
      if no call began in a configuration from which it lost that value: one whose reductions lead to a full
      stack with the value on top and an empty rule next. */
  lemma {:induction false} FreedParserBalances(v: Tree, t: Tables, tokens: seq<Token>)
    requires Valid(t) && NoSelfDerivation(t) && AllTokens(tokens)
    ensures AllAccounted(v, Freed(Run(t, INITIAL, tokens)).trace) <==> v !in RunLoss(t, tokens)
  {
    var c := Run(t, INITIAL, tokens);
    var rounds := RunIsReached(t, tokens);
    ReachedConserves(v, t, rounds);
    BooksUnwind(v, c.trace, c.stack);
    RunLosesExactly(v, t, tokens);
    CountPositive(v, RunLoss(t, tokens));
  }
}
