/** One call of the parser, runs of many calls, and what holds over every run. */
module ParserRuns {
  import opened LemonTables
  import opened Grammar
  import opened ForestBound
  import opened PushMachine

  datatype Move = Shift(act: nat) | Reduce(rule: nat) | Fail

  predicate Readable(t: Tables, c: Config) {
    && |t.lookahead| == |t.action| && |t.shiftOfst| == |t.default|
    && 1 <= |c.stack|
    && (Top(c).stateno < |t.shiftOfst| || YY_MIN_REDUCE <= Top(c).stateno)
  }

  function NextMove(t: Tables, c: Config, token: Token): Move
    requires Readable(t, c)
  {
    var act := ActionFor(t, Top(c).stateno, token.code);
    if act <= YY_MAX_SHIFTREDUCE then Shift(act)
    else if act <= YY_MAX_REDUCE then Reduce(act - YY_MIN_REDUCE)
    else Fail
  }

  /** No read of the next step is out of bounds and none of its asserts fails. */
  predicate StepDefined(t: Tables, c: Config, token: Token) {
    && Readable(t, c)
    && match NextMove(t, c, token)
      case Shift(_) => true
      case Reduce(rule) => Reducible(t, c.stack, rule)
      case Fail => ActionFor(t, Top(c).stateno, token.code) == YY_ERROR_ACTION
  }

  /** One round of the loop of a call, on a stack that has room for so many entries. */
  function StepWithin(t: Tables, c: Config, token: Token, room: nat): Config
    requires StepDefined(t, c, token)
  {
    match NextMove(t, c, token)
    case Shift(act) => ShiftWithin(c, act, token, room)
    case Reduce(rule) => ReduceWithin(t, c, rule, room)
    case Fail => Rejected(c, token)
  }

  function Step(t: Tables, c: Config, token: Token): Config
    requires StepDefined(t, c, token)
  {
    StepWithin(t, c, token, YYSTACKDEPTH)
  }

  /** The token is reported and goes to its destructor; the stack stays. */
  function Rejected(c: Config, token: Token): Config {
    Config(c.stack, c.trace + [SyntaxError(token)] + [Discarded(token)])
  }

  /** The loop stops: the token has been used, or the stack is down to its base. */
  predicate Done(t: Tables, c: Config, token: Token)
    requires StepDefined(t, c, token)
  {
    !NextMove(t, c, token).Reduce? || |Step(t, c, token).stack| == 1
  }

  ghost predicate CompleteOnTop(t: Tables, c: Config, rule: nat)
    requires 1 <= |c.stack|
  {
    rule < |t.rules| && Item(rule, |t.rules[rule].rhs|) in ItemsOf(t, Top(c).stateno)
  }

  ghost predicate ShiftFits(t: Tables, c: Config, token: Token, act: nat)
    requires 1 <= |c.stack|
  {
    && Top(c).stateno < |t.items|
    && exists x :: ActsAs(t, token.code, x) && PushOk(t, Top(c).stateno, x, act)
  }

  lemma {:induction false} TopInv(t: Tables, c: Config)
    requires Valid(t) && Coherent(t, c)
    ensures Readable(t, c)
    ensures Top(c).stateno < |t.items| || YY_MIN_REDUCE <= Top(c).stateno < YY_MIN_REDUCE + |t.rules|
  {
    if |c.stack| > 1 {
      assert LinkedAt(t, c.stack, |c.stack| - 1);
    }
  }

  lemma {:induction false} ShiftActionCases(t: Tables, state: nat, x: nat)
    requires Valid(t) && state < |t.items| && x < YYNTERMINAL
    ensures var act := ShiftAction(t, state, x);
      || act == YY_ERROR_ACTION
      || ReduceOk(t, state, act)
      || exists y :: ActsAs(t, x, y) && PushOk(t, state, y, act)
  {
    var offset, f := t.shiftOfst[state], Fallback(t, x);
    ActsAsRefl(t, x);
    if Stored(t, offset, x) {
    } else if f != 0 && Stored(t, offset, f) {
      assert ActsAs(t, x, f);
    } else if x != 0 && Stored(t, offset, YYWILDCARD) {
      assert ActsAs(t, x, YYWILDCARD);
    }
  }

  /** With valid tables, a shift moves dots over a symbol the token stands for, and a reduction is by a
      rule whose right-hand side is complete on top of the stack. */
  lemma {:induction false} MoveCases(t: Tables, c: Config, token: Token)
    requires Valid(t) && Coherent(t, c) && token.code < YYNTERMINAL
    ensures Readable(t, c)
    ensures match NextMove(t, c, token)
      case Shift(act) => ShiftFits(t, c, token, act)
      case Reduce(rule) => CompleteOnTop(t, c, rule)
      case Fail => ActionFor(t, Top(c).stateno, token.code) == YY_ERROR_ACTION
  {
    TopInv(t, c);
    if Top(c).stateno < YY_MIN_REDUCE {
      ShiftActionCases(t, Top(c).stateno, token.code);
    }
  }

  /** Each step of a valid machine is defined and keeps the configuration coherent, whatever room there is,
      and within that room. */
  lemma {:induction false} StepCoheres(t: Tables, c: Config, token: Token, room: nat)
    requires Valid(t) && Coherent(t, c) && token.code < YYNTERMINAL
    ensures StepDefined(t, c, token) && Coherent(t, StepWithin(t, c, token, room))
    ensures 1 <= room && |c.stack| <= room ==> |StepWithin(t, c, token, room).stack| <= room
  {
    MoveCases(t, c, token);
    match NextMove(t, c, token) {
      case Shift(act) =>
        var x :| ActsAs(t, token.code, x) && PushOk(t, Top(c).stateno, x, act);
        ShiftCoheres(t, c, act, token, x, room);
      case Reduce(rule) =>
        ReduceCoheres(t, c, rule, room);
      case Fail =>
        RejectedCoheres(t, c, token);
    }
  }

  /** With the fixed depth it keeps the invariant. */
  lemma {:induction false} StepKeepsInv(t: Tables, c: Config, token: Token)
    requires Valid(t) && Inv(t, c) && token.code < YYNTERMINAL
    ensures StepDefined(t, c, token) && Inv(t, Step(t, c, token))
  {
    StepCoheres(t, c, token, YYSTACKDEPTH);
  }

  lemma {:induction false} RejectedCoheres(t: Tables, c: Config, token: Token)
    requires Coherent(t, c)
    ensures Coherent(t, Rejected(c, token)) && Live(Rejected(c, token).trace) == Live(c.trace)
  {
    LiveAppend(c.trace, SyntaxError(token));
    LiveAppend(c.trace + [SyntaxError(token)], Discarded(token));
  }

  // ----- Termination of a call -----

  /** What a reduction leaves: its result on top of what was below the handle, or the bare base after an
      accept of the start symbol or an overflow. */
  lemma {:induction false} ReduceOutcome(t: Tables, c: Config, rule: nat, room: nat)
    requires Valid(t) && Coherent(t, c) && CompleteOnTop(t, c, rule)
    ensures Reducible(t, c.stack, rule)
    ensures var c', args := ReduceWithin(t, c, rule, room), Handle(t, c.stack, rule);
      if |c'.stack| > 1 then
        && c'.trace == c.trace + [Reduced(rule, args)]
        && |c'.stack| == |c.stack| - |args| + 1
        && c'.stack[..|c'.stack|-1] == c.stack[..|c.stack|-|args|]
        && Top(c').minor == Node(rule, args)
      else
        && c'.stack == [BASE]
        && (|| (c'.trace == c.trace + [Accepted(rule, args)]
                && t.rules[rule].lhs == t.start && |args| == |c.stack| - 1)
            || (c' == Overflowed(c, c.stack[..|c.stack|-1], ReduceOverflow(Top(c).minor))
                && Overfills(t, c, rule, room)))
  {
    CanReduce(t, c, rule);
  }

  lemma {:induction false} PoppedAndPushedSize(t: Tables, stack: seq<StackEntry>, stack': seq<StackEntry>,
                                               rule: nat, args: seq<Tree>)
    requires Chained(t, stack) && |args| < |stack| && args == TopMinors(stack, |args|)
    requires 1 < |stack'| == |stack| - |args| + 1
    requires stack'[..|stack'|-1] == stack[..|stack|-|args|] && stack'[|stack'|-1].minor == Node(rule, args)
    ensures Sizes(Minors(stack')) == Sizes(Minors(stack)) + 1
  {
    var rest := stack[..|stack|-|args|];
    PopKeepsChain(t, stack, |args|);
    assert Minors(stack') == Minors(rest) + [Node(rule, args)];
    SizesPush(Minors(rest), Node(rule, args));
    SizesConcat(Minors(rest), args);
  }

  /** A step that does not end the call is a reduction: one more node over the same tokens. */
  lemma {:induction false} StepAddsNodeWithin(t: Tables, c: Config, token: Token, room: nat)
    requires Valid(t) && Coherent(t, c) && token.code < YYNTERMINAL && StepDefined(t, c, token)
    requires NextMove(t, c, token).Reduce? && |StepWithin(t, c, token, room).stack| != 1
    ensures var c' := StepWithin(t, c, token, room);
            && 1 < |c'.stack|
            && Sizes(Minors(c'.stack)) == Sizes(Minors(c.stack)) + 1
            && Live(c'.trace) == Live(c.trace)
            && |c'.trace| == |c.trace| + 1 && c'.trace[..|c.trace|] == c.trace && c'.trace[|c.trace|].Reduced?
  {
    hide Valid, Conforms, Handle, TopMinors, Overfills;
    MoveCases(t, c, token);
    var rule := NextMove(t, c, token).rule;
    ReduceOutcome(t, c, rule, room);
    PoppedAndPushedSize(t, c.stack, StepWithin(t, c, token, room).stack, rule, Handle(t, c.stack, rule));
  }

  lemma {:induction false} StepAddsNode(t: Tables, c: Config, token: Token)
    requires Valid(t) && Inv(t, c) && token.code < YYNTERMINAL
    requires StepDefined(t, c, token) && !Done(t, c, token)
    ensures var c' := Step(t, c, token);
            && 1 <= |c'.stack|
            && Sizes(Minors(c'.stack)) == Sizes(Minors(c.stack)) + 1
            && Live(c'.trace) == Live(c.trace)
            && |c'.trace| == |c.trace| + 1 && c'.trace[..|c.trace|] == c.trace && c'.trace[|c.trace|].Reduced?
  {
    StepAddsNodeWithin(t, c, token, YYSTACKDEPTH);
  }

  lemma {:induction false} SizeBelowMax(t: Tables, c: Config, room: nat)
    requires Valid(t) && NoSelfDerivation(t) && Coherent(t, c) && |c.stack| <= room
    ensures Sizes(Minors(c.stack)) <= room * MaxNodes(t, |Live(c.trace)|)
  {
    var trees := Minors(c.stack);
    forall i | 0 <= i < |trees| ensures Conforms(t, trees[i]) {
      assert LinkedAt(t, c.stack, i + 1);
    }
    ForestSize(t, trees, room);
  }

  /** How many more reductions are possible before the next token is taken, on a stack of that room. */
  ghost function RemainingWithin(t: Tables, c: Config, room: nat): nat
    requires Valid(t) && NoSelfDerivation(t) && Coherent(t, c) && |c.stack| <= room
  {
    SizeBelowMax(t, c, room);
    room * MaxNodes(t, |Live(c.trace)|) - Sizes(Minors(c.stack))
  }

  ghost function Remaining(t: Tables, c: Config): nat
    requires Valid(t) && NoSelfDerivation(t) && Inv(t, c)
  {
    RemainingWithin(t, c, YYSTACKDEPTH)
  }

  ghost predicate Ready(t: Tables, c: Config) {
    Valid(t) && NoSelfDerivation(t) && Inv(t, c)
  }

  /** One call of the parser.  It always returns: its recursion is bounded by the grammar. */
  ghost function Call(t: Tables, c: Config, token: Token): (c': Config)
    requires Ready(t, c) && token.code < YYNTERMINAL
    ensures Inv(t, c')
    decreases Remaining(t, c)
  {
    StepKeepsInv(t, c, token);
    var next := Step(t, c, token);
    if Done(t, c, token) then next
    else StepAddsNode(t, c, token); Call(t, next, token)
  }

  /** How often the loop of a call goes round. */
  ghost function Rounds(t: Tables, c: Config, token: Token): (n: nat)
    requires Ready(t, c) && token.code < YYNTERMINAL
    ensures 0 < n <= Remaining(t, c) + 1
    decreases Remaining(t, c)
  {
    StepKeepsInv(t, c, token);
    if Done(t, c, token) then 1
    else StepAddsNode(t, c, token); 1 + Rounds(t, Step(t, c, token), token)
  }

  ghost predicate AllTokens(tokens: seq<Token>) {
    forall i :: 0 <= i < |tokens| ==> tokens[i].code < YYNTERMINAL
  }

  /** The configuration after one call per token. */
  ghost function Run(t: Tables, c: Config, tokens: seq<Token>): (c': Config)
    requires Ready(t, c) && AllTokens(tokens)
    ensures Inv(t, c')
  {
    if tokens == [] then c
    else Call(t, Run(t, c, tokens[..|tokens|-1]), tokens[|tokens|-1])
  }

  lemma InitialInv(t: Tables)
    ensures Inv(t, INITIAL)
  {
  }

  // ----- Induction over calls and runs -----

  /** Every step that a call can make keeps the property. */
  ghost predicate KeptBySteps(t: Tables, P: Config -> bool) {
    forall c: Config, token: Token ::
      Inv(t, c) && token.code < YYNTERMINAL && StepDefined(t, c, token) && P(c) ==> P(Step(t, c, token))
  }

  lemma {:induction false} CallKeeps(t: Tables, P: Config -> bool, c: Config, token: Token)
    requires Ready(t, c) && token.code < YYNTERMINAL
    requires KeptBySteps(t, P) && P(c)
    ensures P(Call(t, c, token))
    decreases Remaining(t, c)
  {
    StepKeepsInv(t, c, token);
    var next := Step(t, c, token);
    assert P(next);
    if !Done(t, c, token) {
      StepAddsNode(t, c, token);
      CallKeeps(t, P, next, token);
    }
  }

  // ----- Everything the driver can reach -----

  /** The configuration after some rounds of the loop, each with the token of the call it is part of.  No
      call has to return for this, so that it is there for every valid set of tables. */
  ghost function Reached(t: Tables, rounds: seq<Token>): (c: Config)
    requires Valid(t) && AllTokens(rounds)
    ensures Inv(t, c)
  {
    if rounds == [] then InitialInv(t); INITIAL
    else
      var c, token := Reached(t, rounds[..|rounds|-1]), rounds[|rounds|-1];
      StepKeepsInv(t, c, token);
      Step(t, c, token)
  }

  /** What holds at first and is kept by every step holds wherever the driver can get. */
  lemma {:induction false} ReachedKeeps(t: Tables, P: Config -> bool, rounds: seq<Token>)
    requires Valid(t) && AllTokens(rounds)
    requires KeptBySteps(t, P) && P(INITIAL)
    ensures P(Reached(t, rounds))
  {
    if rounds != [] {
      var c, token := Reached(t, rounds[..|rounds|-1]), rounds[|rounds|-1];
      ReachedKeeps(t, P, rounds[..|rounds|-1]);
      StepKeepsInv(t, c, token);
    }
  }

  lemma {:induction false} ReachedNext(t: Tables, rounds: seq<Token>, token: Token)
    requires Valid(t) && AllTokens(rounds) && token.code < YYNTERMINAL
    ensures AllTokens(rounds + [token]) && StepDefined(t, Reached(t, rounds), token)
    ensures Reached(t, rounds + [token]) == Step(t, Reached(t, rounds), token)
  {
    StepKeepsInv(t, Reached(t, rounds), token);
    assert (rounds + [token])[..|rounds|] == rounds;
  }

  lemma {:induction false} CallIsReached(t: Tables, rounds: seq<Token>, token: Token) returns (more: seq<Token>)
    requires Valid(t) && NoSelfDerivation(t) && AllTokens(rounds) && token.code < YYNTERMINAL
    ensures AllTokens(more) && Reached(t, more) == Call(t, Reached(t, rounds), token)
    decreases Remaining(t, Reached(t, rounds))
  {
    var c := Reached(t, rounds);
    ReachedNext(t, rounds, token);
    more := rounds + [token];
    if !Done(t, c, token) {
      StepAddsNode(t, c, token);
      more := CallIsReached(t, more, token);
    }
  }

  /** Every run of whole calls is made of such rounds. */
  lemma {:induction false} RunIsReached(t: Tables, tokens: seq<Token>) returns (rounds: seq<Token>)
    requires Valid(t) && NoSelfDerivation(t) && AllTokens(tokens)
    ensures AllTokens(rounds) && Reached(t, rounds) == Run(t, INITIAL, tokens)
  {
    if tokens == [] {
      rounds := [];
    } else {
      var front := RunIsReached(t, tokens[..|tokens|-1]);
      rounds := CallIsReached(t, front, tokens[|tokens|-1]);
    }
  }

  lemma {:induction false} RunKeeps(t: Tables, P: Config -> bool, tokens: seq<Token>)
    requires Valid(t) && NoSelfDerivation(t) && AllTokens(tokens)
    requires KeptBySteps(t, P) && P(INITIAL)
    ensures P(Run(t, INITIAL, tokens))
  {
    var rounds := RunIsReached(t, tokens);
    ReachedKeeps(t, P, rounds);
  }

  /** The same for a property of the tokens given so far that every call extends by its token. */
  lemma {:induction false} RunRelates(t: Tables, P: (Config, seq<Token>) -> bool, tokens: seq<Token>)
    requires Valid(t) && NoSelfDerivation(t) && AllTokens(tokens)
    requires P(INITIAL, [])
    requires forall c: Config, given: seq<Token>, token: Token ::
      Ready(t, c) && token.code < YYNTERMINAL && P(c, given) ==> P(Call(t, c, token), given + [token])
    ensures P(Run(t, INITIAL, tokens), tokens)
  {
    if tokens != [] {
      var front, last := tokens[..|tokens|-1], tokens[|tokens|-1];
      assert tokens == front + [last];
      RunRelates(t, P, front);
      assert P(Call(t, Run(t, INITIAL, front), last), front + [last]);
    }
  }

  lemma {:induction false} ChainShape(t: Tables, stack: seq<StackEntry>, i: nat)
    requires Chained(t, stack) && i < |stack|
    ensures i > 0 ==> stack[i].stateno != 0
    ensures i < |stack| - 1 ==> stack[i].stateno < |t.items|
  {
    assert LinkedAt(t, stack, i) && LinkedAt(t, stack, i + 1);
  }

  /** Depth and pending reduces, wherever the driver can get: between 1 and 100 entries, the base never
      overwritten, and a reduce code nowhere but on top. */
  lemma {:induction false} ReachedShape(t: Tables, rounds: seq<Token>)
    requires Valid(t) && AllTokens(rounds)
    ensures var stack := Reached(t, rounds).stack;
      && 1 <= |stack| <= YYSTACKDEPTH
      && stack[0] == BASE
      && (forall i :: 1 <= i < |stack| ==> stack[i].stateno != 0)
      && (forall i :: 0 <= i < |stack| - 1 ==> stack[i].stateno <= YY_MAX_SHIFT)
  {
    var stack := Reached(t, rounds).stack;
    forall i | 0 <= i < |stack|
      ensures (i > 0 ==> stack[i].stateno != 0) && (i < |stack| - 1 ==> stack[i].stateno < |t.items|)
    {
      ChainShape(t, stack, i);
    }
  }

  // ----- Soundness -----

  ghost function Majors(stack: seq<StackEntry>): seq<nat>
    requires 1 <= |stack|
  {
    seq(|stack| - 1, i requires 0 <= i < |stack| - 1 => stack[i + 1].major)
  }

  /** At any time the symbols on the stack derive the tokens taken so far. */
  lemma {:induction false} StackDerivesLive(t: Tables, c: Config)
    requires Coherent(t, c)
    ensures Derives(t, Majors(c.stack), Codes(Live(c.trace)))
  {
    var trees := Minors(c.stack);
    forall i | 0 <= i < |trees| ensures Conforms(t, trees[i]) && Root(t, trees[i]) == c.stack[i + 1].major {
      assert LinkedAt(t, c.stack, i + 1);
    }
    assert Roots(t, trees) == Majors(c.stack);
    ForestDerives(t, trees);
  }

  lemma {:induction false} AcceptDerivesLive(t: Tables, c: Config, rule: nat)
    requires Valid(t) && Coherent(t, c) && CompleteOnTop(t, c, rule)
    requires t.rules[rule].lhs == t.start && |t.rules[rule].rhs| == |c.stack| - 1
    ensures Derives(t, [t.start], Codes(Live(c.trace)))
  {
    CanReduce(t, c, rule);
    assert Handle(t, c.stack, rule) == Minors(c.stack);
    TreeDerives(t, Node(rule, Minors(c.stack)));
  }

  lemma {:induction false} UnwindDestroys(stack: seq<StackEntry>)
    ensures forall i :: 0 <= i < |Unwind(stack)| ==> Unwind(stack)[i].Destroyed?
  {
    if |stack| > 1 {
      UnwindDestroys(stack[..|stack|-1]);
    }
  }

  /** The trace grows, and an accept in what is added to it is the last event, leaves the bare base and has
      the live tokens as a sentence. */
  ghost predicate TraceGrows(t: Tables, c: Config, c': Config) {
    && |c.trace| < |c'.trace| && c'.trace[..|c.trace|] == c.trace
    && forall i :: |c.trace| <= i < |c'.trace| && c'.trace[i].Accepted? ==>
        && i == |c.trace| == |c'.trace| - 1
        && c'.stack == [BASE]
        && Derives(t, [t.start], Codes(Live(c.trace)))
  }

  lemma {:induction false} OverflowTrace(t: Tables, c: Config, dropped: seq<StackEntry>, event: Event)
    requires 1 <= |c.stack| && !event.Accepted?
    ensures TraceGrows(t, c, Overflowed(c, dropped, event))
  {
    UnwindDestroys(dropped);
  }

  lemma {:induction false} ReduceTrace(t: Tables, c: Config, rule: nat, room: nat)
    requires Valid(t) && Coherent(t, c) && CompleteOnTop(t, c, rule) && Reducible(t, c.stack, rule)
    ensures TraceGrows(t, c, ReduceWithin(t, c, rule, room))
  {
    ReduceOutcome(t, c, rule, room);
    var c' := ReduceWithin(t, c, rule, room);
    if |c'.stack| == 1 {
      if Overfills(t, c, rule, room) {
        OverflowTrace(t, c, c.stack[..|c.stack|-1], ReduceOverflow(Top(c).minor));
      } else {
        AcceptDerivesLive(t, c, rule);
      }
    }
  }

  lemma {:induction false} StepTraceWithin(t: Tables, c: Config, token: Token, room: nat)
    requires Valid(t) && Coherent(t, c) && token.code < YYNTERMINAL && StepDefined(t, c, token)
    ensures TraceGrows(t, c, StepWithin(t, c, token, room))
  {
    MoveCases(t, c, token);
    match NextMove(t, c, token) {
      case Shift(_) => OverflowTrace(t, c, c.stack, ShiftOverflow);
      case Fail =>
      case Reduce(rule) => ReduceTrace(t, c, rule, room);
    }
  }

  lemma {:induction false} StepTrace(t: Tables, c: Config, token: Token)
    requires Valid(t) && Inv(t, c) && token.code < YYNTERMINAL && StepDefined(t, c, token)
    ensures TraceGrows(t, c, Step(t, c, token))
  {
    StepTraceWithin(t, c, token, YYSTACKDEPTH);
  }

  lemma {:induction false} StepKeepsAcceptsSound(t: Tables, c: Config, token: Token, room: nat)
    requires Valid(t) && Coherent(t, c) && token.code < YYNTERMINAL && StepDefined(t, c, token)
    requires AcceptsSound(t, c.trace)
    ensures AcceptsSound(t, StepWithin(t, c, token, room).trace)
  {
    StepTraceWithin(t, c, token, room);
    var trace := StepWithin(t, c, token, room).trace;
    forall i | 0 <= i < |trace| && trace[i].Accepted?
      ensures Derives(t, [t.start], Codes(Live(trace[..i])))
    {
      assert trace[..i] == if i < |c.trace| then c.trace[..i] else c.trace;
    }
  }

  lemma {:induction false} StepsKeepAcceptsSound(t: Tables)
    requires Valid(t)
    ensures KeptBySteps(t, (c: Config) => AcceptsSound(t, c.trace))
  {
    forall c: Config, token: Token
      | Inv(t, c) && token.code < YYNTERMINAL && StepDefined(t, c, token) && AcceptsSound(t, c.trace)
      ensures AcceptsSound(t, Step(t, c, token).trace)
    {
      StepKeepsAcceptsSound(t, c, token, YYSTACKDEPTH);
    }
  }

  /** Soundness: whenever the driver accepts, the tokens taken since the accept or overflow before it are a
      sentence of the grammar. */
  lemma {:induction false} ReachedSound(t: Tables, rounds: seq<Token>)
    requires Valid(t) && AllTokens(rounds)
    ensures AcceptsSound(t, Reached(t, rounds).trace)
  {
    StepsKeepAcceptsSound(t);
    ReachedKeeps(t, (c: Config) => AcceptsSound(t, c.trace), rounds);
  }

  /** The ways a call can end, by the last thing it does.  Apart from an overflow, everything it did
      before that was to reduce. */
  ghost predicate CallEnds(c: Config, c': Config, token: Token) {
    && |c.trace| < |c'.trace| && c'.trace[..|c.trace|] == c.trace
    && match c'.trace[|c'.trace|-1]
      case Shifted(shifted) => shifted == token && OnlyReduces(c, c', 1) && Live(c'.trace) == Live(c.trace) + [token]
      case Discarded(bad) => bad == token && |c.trace| + 2 <= |c'.trace|
                             && c'.trace[|c'.trace|-2] == SyntaxError(token)
                             && OnlyReduces(c, c', 2) && Live(c'.trace) == Live(c.trace)
      case Accepted(_, _) => c'.stack == [BASE] && OnlyReduces(c, c', 1)
                             && Live(c'.trace[..|c'.trace|-1]) == Live(c.trace)
      case ShiftOverflow => c'.stack == [BASE]
      case ReduceOverflow(_) => c'.stack == [BASE]
      case _ => false
  }

  /** Up to the last n things it did. */
  ghost predicate OnlyReduces(c: Config, c': Config, n: nat) {
    forall i :: |c.trace| <= i < |c'.trace| - n ==> c'.trace[i].Reduced?
  }

  lemma {:induction false} LastStepEnds(t: Tables, c: Config, token: Token)
    requires Valid(t) && Inv(t, c) && token.code < YYNTERMINAL
    requires StepDefined(t, c, token) && Done(t, c, token)
    ensures CallEnds(c, Step(t, c, token), token)
  {
    MoveCases(t, c, token);
    StepTrace(t, c, token);
    var c' := Step(t, c, token);
    match NextMove(t, c, token) {
      case Shift(_) =>
        var before := c'.trace[..|c'.trace|-1];
        assert before == c.trace + Unwind(c.stack) || before == c.trace;
      case Fail => RejectedCoheres(t, c, token);
      case Reduce(rule) => ReduceOutcome(t, c, rule, YYSTACKDEPTH);
    }
  }

  lemma {:induction false} ReduceThenEnds(c: Config, next: Config, c': Config, token: Token)
    requires |next.trace| == |c.trace| + 1 && next.trace[..|c.trace|] == c.trace && next.trace[|c.trace|].Reduced?
    requires Live(next.trace) == Live(c.trace) && CallEnds(next, c', token)
    ensures CallEnds(c, c', token)
  {
    assert c'.trace[..|c.trace|] == c'.trace[..|next.trace|][..|c.trace|];
    assert c'.trace[|c.trace|] == c'.trace[..|next.trace|][|c.trace|];
  }

  /** A call takes its token once, or reports it, or gives it up because it accepted or overflowed. */
  lemma {:induction false} CallOutcome(t: Tables, c: Config, token: Token)
    requires Ready(t, c) && token.code < YYNTERMINAL
    ensures CallEnds(c, Call(t, c, token), token)
    decreases Remaining(t, c)
  {
    StepKeepsInv(t, c, token);
    if Done(t, c, token) {
      LastStepEnds(t, c, token);
    } else {
      StepAddsNode(t, c, token);
      CallOutcome(t, Step(t, c, token), token);
      ReduceThenEnds(c, Step(t, c, token), Call(t, c, token), token);
    }
  }

  ghost predicate Clean(trace: seq<Event>) {
    forall i :: 0 <= i < |trace| ==> trace[i].Shifted? || trace[i].Reduced?
  }

  ghost predicate TookAll(c: Config, given: seq<Token>) {
    Clean(c.trace) ==> Live(c.trace) == given
  }

  lemma {:induction false} CleanCallShifts(c: Config, c': Config, given: seq<Token>, token: Token)
    requires CallEnds(c, c', token) && TookAll(c, given)
    ensures TookAll(c', given + [token])
  {
    if Clean(c'.trace) {
      assert forall i :: 0 <= i < |c.trace| ==> c.trace[i] == c'.trace[..|c.trace|][i];
      assert c'.trace[|c'.trace|-1].Shifted?;
    }
  }

  lemma {:induction false} CleanRunTakesAll(t: Tables, tokens: seq<Token>)
    requires Valid(t) && NoSelfDerivation(t) && AllTokens(tokens)
    requires Clean(Run(t, INITIAL, tokens).trace)
    ensures Live(Run(t, INITIAL, tokens).trace) == tokens
  {
    forall c: Config, given: seq<Token>, token: Token | Ready(t, c) && token.code < YYNTERMINAL && TookAll(c, given)
      ensures TookAll(Call(t, c, token), given + [token])
    {
      CallOutcome(t, c, token);
      CleanCallShifts(c, Call(t, c, token), given, token);
    }
    RunRelates(t, TookAll, tokens);
  }

  /** If the parser takes all tokens without an error or an earlier accept, and then accepts when it is
      given one more (the end of input), those tokens are a sentence of the grammar, and the parser is
      back in its initial configuration. */
  lemma {:induction false} AcceptedInput(t: Tables, tokens: seq<Token>, end: Token)
    requires Valid(t) && NoSelfDerivation(t) && AllTokens(tokens) && end.code < YYNTERMINAL
    ensures var c := Run(t, INITIAL, tokens);
      Clean(c.trace) && EndsInAccept(Call(t, c, end).trace) ==>
        Derives(t, [t.start], Codes(tokens)) && Call(t, c, end).stack == INITIAL.stack
  {
    var c := Run(t, INITIAL, tokens);
    if Clean(c.trace) && EndsInAccept(Call(t, c, end).trace) {
      CallOutcome(t, c, end);
      CleanRunTakesAll(t, tokens);
      StepsKeepAcceptsSound(t);
      RunKeeps(t, (c: Config) => AcceptsSound(t, c.trace), tokens);
      CallKeeps(t, (c: Config) => AcceptsSound(t, c.trace), c, end);
    }
  }

  predicate EndsInAccept(trace: seq<Event>) {
    trace != [] && trace[|trace|-1].Accepted?
  }
}
