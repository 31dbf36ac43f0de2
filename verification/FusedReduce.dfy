/** The fused shift-reduce actions against the textbook machine.

    The driver pushes a rebased reduce code instead of a state and makes that reduction at the start of the
    next call.  The textbook machine below reduces at once, by the rule that the action names, and never has
    anything but states on its stack.
 */
module FusedReduce {
  import opened LemonTables
  import opened Grammar
  import opened ForestBound
  import opened PushMachine
  import opened ParserRuns

  predicate Pending(c: Config)
    requires 1 <= |c.stack|
  {
    YY_MIN_REDUCE <= Top(c).stateno
  }

  lemma {:induction false} PendingReduces(t: Tables, c: Config, token: Token)
    requires Valid(t) && Inv(t, c) && token.code < YYNTERMINAL && Pending(c)
    ensures StepDefined(t, c, token)
    ensures NextMove(t, c, token) == Reduce(Top(c).stateno - YY_MIN_REDUCE)
    ensures Step(t, c, token) == ReduceStep(t, c, Top(c).stateno - YY_MIN_REDUCE)
  {
    StepKeepsInv(t, c, token);
    MoveCases(t, c, token);
    TopInv(t, c);
  }

  const ANY_TOKEN: Token := Token(0, "")

  /** The pending reduction is made. */
  ghost function Forced(t: Tables, c: Config): (c': Config)
    requires Ready(t, c) && Pending(c)
    ensures Inv(t, c')
    ensures |c'.stack| > 1 ==> Remaining(t, c') < Remaining(t, c)
  {
    PendingReduces(t, c, ANY_TOKEN);
    StepKeepsInv(t, c, ANY_TOKEN);
    if !Done(t, c, ANY_TOKEN) then StepAddsNode(t, c, ANY_TOKEN); Step(t, c, ANY_TOKEN)
    else Step(t, c, ANY_TOKEN)
  }

  /** All pending reductions are made, one after the other. */
  ghost function Settle(t: Tables, c: Config): (c': Config)
    requires Ready(t, c)
    ensures Inv(t, c') && !Pending(c')
    decreases Remaining(t, c)
  {
    if !Pending(c) then c
    else
      var next := Forced(t, c);
      if |next.stack| > 1 then Settle(t, next) else next
  }

  lemma {:induction false} SettleDecreases(t: Tables, c: Config)
    requires Ready(t, c)
    ensures |Settle(t, c).stack| > 1 ==> Remaining(t, Settle(t, c)) <= Remaining(t, c)
    decreases Remaining(t, c)
  {
    if Pending(c) && |Forced(t, c).stack| > 1 {
      SettleDecreases(t, Forced(t, c));
    }
  }

  /** A pending rule is not empty. */
  lemma {:induction false} LinkedAtTop(t: Tables, c: Config)
    requires Valid(t) && Inv(t, c) && Pending(c)
    ensures Top(c).stateno - YY_MIN_REDUCE < |t.rules| && t.rules[Top(c).stateno - YY_MIN_REDUCE].rhs != []
  {
    assert LinkedAt(t, c.stack, |c.stack| - 1);
  }

  // ----- The textbook machine -----

  /** A symbol with its value on top of the stack, under the code of an action. */
  function Pushed(c: Config, major: nat, minor: Tree, act: nat): Config {
    Config(c.stack + [StackEntry(StackCode(act), major, minor)], c.trace)
  }

  /** The value that a fused action makes of the symbol at hand and of those on the stack before it. */
  function FusedArgs(t: Tables, c: Config, minor: Tree, rule: nat): seq<Tree>
    requires rule < |t.rules| && 1 <= |t.rules[rule].rhs| <= |c.stack|
  {
    TopMinors(c.stack, |t.rules[rule].rhs| - 1) + [minor]
  }

  function FusedRest(t: Tables, c: Config, rule: nat): seq<StackEntry>
    requires rule < |t.rules| && 1 <= |t.rules[rule].rhs| <= |c.stack|
  {
    c.stack[..|c.stack| - (|t.rules[rule].rhs| - 1)]
  }

  /** What a reduction leads to: on with the left-hand side by the action of its goto, or accept. */
  datatype Next = GoOn(c: Config, major: nat, minor: Tree, act: nat) | Halt(c: Config)

  function After(t: Tables, rest: seq<StackEntry>, trace: seq<Event>, rule: nat, args: seq<Tree>): (next: Next)
    requires |t.lookahead| == |t.action| && rule < |t.rules| && rest != []
    requires GotoDefined(t, rest[|rest|-1].stateno, t.rules[rule].lhs)
    ensures next.c.stack != [] && (next.GoOn? ==> next.act <= YY_MAX_SHIFTREDUCE)
  {
    var lhs := t.rules[rule].lhs;
    var act := Goto(t, rest[|rest|-1].stateno, lhs);
    if act <= YY_MAX_SHIFTREDUCE then GoOn(Config(rest, trace + [Reduced(rule, args)]), lhs, Node(rule, args), act)
    else Halt(Config(rest, trace + [Accepted(rule, args)]))
  }

  /** Where the driver is then: what goes on is pushed. */
  function Landed(next: Next): Config {
    match next
    case GoOn(c, major, minor, act) => Pushed(c, major, minor, act)
    case Halt(c) => c
  }

  predicate CanFuse(t: Tables, c: Config, rule: nat) {
    && |t.lookahead| == |t.action| && rule < |t.rules| && 1 <= |t.rules[rule].rhs| <= |c.stack|
    && FusedRest(t, c, rule) != []
    && GotoDefined(t, FusedRest(t, c, rule)[|FusedRest(t, c, rule)|-1].stateno, t.rules[rule].lhs)
  }

  function FusedNext(t: Tables, c: Config, minor: Tree, rule: nat): (next: Next)
    requires CanFuse(t, c, rule)
    ensures next.GoOn? ==> next.act <= YY_MAX_SHIFTREDUCE
  {
    After(t, FusedRest(t, c, rule), c.trace, rule, FusedArgs(t, c, minor, rule))
  }

  /** Going on with a symbol: to a state, or, if its action is fused, by reducing at once by the rule of the
      action and going on with the left-hand side.  Nothing but states is ever put on the stack. */
  ghost function Absorb(t: Tables, next: Next): Config
    requires Ready(t, Landed(next)) && (next.GoOn? ==> next.act <= YY_MAX_SHIFTREDUCE)
    decreases next.GoOn?, Remaining(t, Landed(next))
  {
    match next
    case Halt(c) => c
    case GoOn(c, major, minor, act) =>
      if act <= YY_MAX_SHIFT then Config(c.stack + [StackEntry(act, major, minor)], c.trace)
      else
        FusedSettles(t, c, major, minor, act);
        Absorb(t, FusedNext(t, c, minor, act - YY_MIN_SHIFTREDUCE))
  }

  lemma {:induction false} StateIsSettled(t: Tables, next: Next)
    requires next.GoOn? && next.act <= YY_MAX_SHIFT && Ready(t, Landed(next))
    ensures Absorb(t, next) == Settle(t, Landed(next))
  {
  }

  lemma {:induction false} FusedAbsorbs(t: Tables, c: Config, major: nat, minor: Tree, act: nat)
    requires YY_MAX_SHIFT < act <= YY_MAX_SHIFTREDUCE && Ready(t, Pushed(c, major, minor, act))
    ensures 0 <= act - YY_MIN_SHIFTREDUCE && CanFuse(t, c, act - YY_MIN_SHIFTREDUCE)
    ensures var next := FusedNext(t, c, minor, act - YY_MIN_SHIFTREDUCE);
      && SettlesBy(t, Pushed(c, major, minor, act), next)
      && Absorb(t, GoOn(c, major, minor, act)) == Absorb(t, next)
  {
    hide Valid, NoSelfDerivation, Coherent, CanFuse, FusedNext, Settle;
    FusedSettles(t, c, major, minor, act);
  }

  lemma {:induction false} HaltIsSettled(t: Tables, next: Next)
    requires next.Halt? && Ready(t, Landed(next))
    ensures Absorb(t, next) == next.c
  {
  }

  /** Reducing at once ends where pushing the rebased code and settling ends. */
  lemma {:induction false} AbsorbSettles(t: Tables, next: Next)
    requires Ready(t, Landed(next)) && (next.GoOn? ==> next.act <= YY_MAX_SHIFTREDUCE)
    ensures Absorb(t, next) == if next.GoOn? then Settle(t, Landed(next)) else next.c
    decreases next.GoOn?, Remaining(t, Landed(next))
  {
    hide Absorb, Settle, Ready, Remaining, CanFuse, FusedNext, Pushed;
    if next.Halt? {
      HaltIsSettled(t, next);
    } else if next.act <= YY_MAX_SHIFT {
      StateIsSettled(t, next);
    } else {
      FusedAbsorbs(t, next.c, next.major, next.minor, next.act);
      AbsorbSettles(t, FusedNext(t, next.c, next.minor, next.act - YY_MIN_SHIFTREDUCE));
    }
  }

  lemma {:induction false} MadeIsLanded(t: Tables, c: Config, rule: nat)
    requires |t.lookahead| == |t.action| && 1 <= |c.stack| && Reducible(t, c.stack, rule)
    ensures var n := |t.rules[rule].rhs|;
      && GotoDefined(t, c.stack[..|c.stack|-n][|c.stack|-n-1].stateno, t.rules[rule].lhs)
      && var next := After(t, c.stack[..|c.stack|-n], c.trace, rule, TopMinors(c.stack, n));
        && Made(t, c, rule) == Landed(next)
        && (next.GoOn? <==> |Landed(next).stack| > 1)
  {
    var n := |t.rules[rule].rhs|;
    assert c.stack[..|c.stack|-n][|c.stack|-n-1] == c.stack[|c.stack|-1-n];
  }

  /** Off the stack, the rebased code takes what the fused action would take. */
  lemma {:induction false} FusedHandle(t: Tables, c: Config, major: nat, minor: Tree, act: nat, rule: nat)
    requires rule < |t.rules| && 1 <= |t.rules[rule].rhs| <= |c.stack|
    ensures var w, n := Pushed(c, major, minor, act), |t.rules[rule].rhs|;
      && TopMinors(w.stack, n) == FusedArgs(t, c, minor, rule)
      && w.stack[..|w.stack|-n] == FusedRest(t, c, rule)
      && FusedRest(t, c, rule) != []
      && w.stack[|w.stack|-1-n] == FusedRest(t, c, rule)[|FusedRest(t, c, rule)|-1]
  {
    var w, n := Pushed(c, major, minor, act), |t.rules[rule].rhs|;
    assert TopMinors(w.stack, n) == FusedArgs(t, c, minor, rule);
  }

  lemma {:induction false} MadeOfFused(t: Tables, c: Config, major: nat, minor: Tree, act: nat, rule: nat)
    requires |t.lookahead| == |t.action| && rule < |t.rules| && 1 <= |t.rules[rule].rhs| <= |c.stack|
    requires Reducible(t, Pushed(c, major, minor, act).stack, rule)
    ensures CanFuse(t, c, rule)
    ensures Made(t, Pushed(c, major, minor, act), rule) == Landed(FusedNext(t, c, minor, rule))
    ensures FusedNext(t, c, minor, rule).GoOn? <==> |Landed(FusedNext(t, c, minor, rule)).stack| > 1
  {
    FusedHandle(t, c, major, minor, act, rule);
    MadeIsLanded(t, Pushed(c, major, minor, act), rule);
  }

  /** The rebased code stands for a reduction by the rule that the fused action names. */
  lemma {:induction false} FusedRule(t: Tables, c: Config, major: nat, minor: Tree, act: nat)
    requires YY_MAX_SHIFT < act <= YY_MAX_SHIFTREDUCE && Ready(t, Pushed(c, major, minor, act))
    ensures var rule, w := act - YY_MIN_SHIFTREDUCE, Pushed(c, major, minor, act);
      && |t.lookahead| == |t.action| && 0 <= rule < |t.rules| && 1 <= |t.rules[rule].rhs| <= |c.stack|
      && Pending(w) && Reducible(t, w.stack, rule) && Forced(t, w) == Made(t, w, rule)
  {
    var rule, w := act - YY_MIN_SHIFTREDUCE, Pushed(c, major, minor, act);
    assert LinkedAt(t, w.stack, |w.stack| - 1);
    assert Top(w).stateno == act + YY_MIN_REDUCE - YY_MIN_SHIFTREDUCE;
    LinkedAtTop(t, w);
    PendingReduces(t, w, ANY_TOKEN);
  }

  lemma {:induction false} FusedReduces(t: Tables, c: Config, major: nat, minor: Tree, act: nat)
    requires YY_MAX_SHIFT < act <= YY_MAX_SHIFTREDUCE && Ready(t, Pushed(c, major, minor, act))
    ensures var rule, w := act - YY_MIN_SHIFTREDUCE, Pushed(c, major, minor, act);
      && 0 <= rule && Pending(w) && CanFuse(t, c, rule)
      && Forced(t, w) == Landed(FusedNext(t, c, minor, rule))
      && (FusedNext(t, c, minor, rule).GoOn? <==> |Landed(FusedNext(t, c, minor, rule)).stack| > 1)
  {
    hide *;
    FusedRule(t, c, major, minor, act);
    MadeOfFused(t, c, major, minor, act, act - YY_MIN_SHIFTREDUCE);
  }

  /** Settling goes on from where a reduction leads. */
  ghost predicate SettlesBy(t: Tables, w: Config, next: Next)
    requires Ready(t, w)
  {
    && Ready(t, Landed(next))
    && if next.GoOn? then
         && next.act <= YY_MAX_SHIFTREDUCE
         && Remaining(t, Landed(next)) < Remaining(t, w) && Settle(t, w) == Settle(t, Landed(next))
       else Settle(t, w) == next.c
  }

  lemma {:induction false} FusedSettles(t: Tables, c: Config, major: nat, minor: Tree, act: nat)
    requires YY_MAX_SHIFT < act <= YY_MAX_SHIFTREDUCE && Ready(t, Pushed(c, major, minor, act))
    ensures var rule, w := act - YY_MIN_SHIFTREDUCE, Pushed(c, major, minor, act);
      0 <= rule && CanFuse(t, c, rule) && SettlesBy(t, w, FusedNext(t, c, minor, rule))
  {
    hide *;
    var rule, w := act - YY_MIN_SHIFTREDUCE, Pushed(c, major, minor, act);
    FusedReduces(t, c, major, minor, act);
    ForcedSettles(t, w, FusedNext(t, c, minor, rule));
  }

  lemma {:induction false} ForcedSettles(t: Tables, w: Config, next: Next)
    requires Ready(t, w) && Pending(w) && Forced(t, w) == Landed(next)
    requires next.GoOn? <==> |Landed(next).stack| > 1
    requires next.GoOn? ==> next.act <= YY_MAX_SHIFTREDUCE
    ensures SettlesBy(t, w, next)
  {
  }

  ghost function EagerShift(t: Tables, c: Config, act: nat, token: Token): Config
    requires 1 <= |c.stack| && act <= YY_MAX_SHIFTREDUCE && Ready(t, ShiftStep(c, act, token))
  {
    if |c.stack| >= YYSTACKDEPTH then Overflowed(c, c.stack, ShiftOverflow)
    else Absorb(t, GoOn(Config(c.stack, c.trace + [Shifted(token)]), token.code, Leaf(token), act))
  }

  lemma {:induction false} SettledBase(t: Tables, c: Config)
    requires Ready(t, c) && |c.stack| == 1
    ensures Settle(t, c) == c
  {
  }

  ghost function EagerReduce(t: Tables, c: Config, rule: nat): Config
    requires |t.lookahead| == |t.action| && 1 <= |c.stack| && Reducible(t, c.stack, rule)
    requires Ready(t, ReduceStep(t, c, rule))
  {
    if Overfills(t, c, rule, YYSTACKDEPTH) then Overflowed(c, c.stack[..|c.stack|-1], ReduceOverflow(Top(c).minor))
    else
      var n := |t.rules[rule].rhs|;
      MadeIsLanded(t, c, rule);
      Absorb(t, After(t, c.stack[..|c.stack|-n], c.trace, rule, TopMinors(c.stack, n)))
  }

  ghost function EagerStep(t: Tables, c: Config, token: Token): Config
    requires Ready(t, c) && token.code < YYNTERMINAL
  {
    StepKeepsInv(t, c, token);
    match NextMove(t, c, token)
    case Shift(act) => EagerShift(t, c, act, token)
    case Reduce(rule) => EagerReduce(t, c, rule)
    case Fail => Rejected(c, token)
  }

  lemma {:induction false} EagerShiftSettles(t: Tables, c: Config, act: nat, token: Token)
    requires 1 <= |c.stack| && act <= YY_MAX_SHIFTREDUCE && Ready(t, ShiftStep(c, act, token))
    ensures EagerShift(t, c, act, token) == Settle(t, ShiftStep(c, act, token))
  {
    if |c.stack| < YYSTACKDEPTH {
      var next := GoOn(Config(c.stack, c.trace + [Shifted(token)]), token.code, Leaf(token), act);
      assert ShiftStep(c, act, token) == Landed(next);
      AbsorbSettles(t, next);
    } else {
      SettledBase(t, ShiftStep(c, act, token));
    }
  }

  lemma {:induction false} EagerReduceSettles(t: Tables, c: Config, rule: nat)
    requires |t.lookahead| == |t.action| && 1 <= |c.stack| && Reducible(t, c.stack, rule)
    requires Ready(t, ReduceStep(t, c, rule))
    ensures EagerReduce(t, c, rule) == Settle(t, ReduceStep(t, c, rule))
  {
    hide Valid, NoSelfDerivation, Coherent, Made, Absorb;
    var n := |t.rules[rule].rhs|;
    if Overfills(t, c, rule, YYSTACKDEPTH) {
      SettledBase(t, ReduceStep(t, c, rule));
    } else {
      MadeIsLanded(t, c, rule);
      var next := After(t, c.stack[..|c.stack|-n], c.trace, rule, TopMinors(c.stack, n));
      AbsorbSettles(t, next);
      if next.Halt? {
        SettledBase(t, next.c);
      }
    }
  }

  /** A round of the textbook machine is a round of the driver and the reductions it puts off. */
  lemma {:induction false} EagerStepSettles(t: Tables, c: Config, token: Token)
    requires Ready(t, c) && !Pending(c) && token.code < YYNTERMINAL
    ensures StepDefined(t, c, token) && Inv(t, Step(t, c, token))
    ensures EagerStep(t, c, token) == Settle(t, Step(t, c, token))
  {
    StepKeepsInv(t, c, token);
    match NextMove(t, c, token) {
      case Shift(act) => EagerShiftSettles(t, c, act, token);
      case Reduce(rule) => EagerReduceSettles(t, c, rule);
      case Fail =>
    }
  }

  /** One call of the textbook machine. */
  ghost function EagerCall(t: Tables, c: Config, token: Token): (c': Config)
    requires Ready(t, c) && !Pending(c) && token.code < YYNTERMINAL
    ensures Inv(t, c') && !Pending(c')
    decreases Remaining(t, c)
  {
    EagerStepSettles(t, c, token);
    var next := EagerStep(t, c, token);
    if !NextMove(t, c, token).Reduce? || |next.stack| == 1 then next
    else
      StepSettles(t, c, token);
      EagerCall(t, next, token)
  }

  lemma {:induction false} StepSettles(t: Tables, c: Config, token: Token)
    requires Ready(t, c) && token.code < YYNTERMINAL
    ensures StepDefined(t, c, token) && Inv(t, Step(t, c, token))
    ensures NextMove(t, c, token).Reduce? && |Settle(t, Step(t, c, token)).stack| > 1 ==>
      !Done(t, c, token) && Remaining(t, Settle(t, Step(t, c, token))) < Remaining(t, c)
  {
    StepKeepsInv(t, c, token);
    var next := Step(t, c, token);
    if NextMove(t, c, token).Reduce? && |next.stack| > 1 {
      StepAddsNode(t, c, token);
      SettleDecreases(t, next);
    }
  }

  /** A call first makes all pending reductions.  If these empty the stack it stops there. */
  lemma {:induction false} CallSettlesFirst(t: Tables, c: Config, token: Token)
    requires Ready(t, c) && token.code < YYNTERMINAL && Pending(c)
    ensures Call(t, c, token) ==
            if |Settle(t, c).stack| > 1 then Call(t, Settle(t, c), token) else Settle(t, c)
    decreases Remaining(t, c)
  {
    PendingReduces(t, c, token);
    PendingReduces(t, c, ANY_TOKEN);
    var next := Forced(t, c);
    if |next.stack| > 1 && Pending(next) {
      CallSettlesFirst(t, next, token);
    }
  }

  /** From a stack of states, the driver's call ends, once settled, where the textbook machine's call ends. */
  lemma {:induction false} CallIsEager(t: Tables, c: Config, token: Token)
    requires Ready(t, c) && !Pending(c) && token.code < YYNTERMINAL
    ensures Settle(t, Call(t, c, token)) == EagerCall(t, c, token)
    decreases Remaining(t, c)
  {
    EagerStepSettles(t, c, token);
    if !Done(t, c, token) {
      var step := Step(t, c, token);
      StepAddsNode(t, c, token);
      SettleDecreases(t, step);
      if Pending(step) {
        CallSettlesFirst(t, step, token);
      }
      var next := Settle(t, step);
      if |next.stack| > 1 {
        CallIsEager(t, next, token);
      }
    }
  }

  lemma {:induction false} SettleExtends(t: Tables, c: Config)
    requires Ready(t, c)
    ensures |c.trace| <= |Settle(t, c).trace|
    decreases Remaining(t, c)
  {
    if Pending(c) {
      PendingReduces(t, c, ANY_TOKEN);
      StepTrace(t, c, ANY_TOKEN);
      if |Forced(t, c).stack| > 1 {
        SettleExtends(t, Forced(t, c));
      }
    }
  }

  lemma {:induction false} EagerCallExtends(t: Tables, c: Config, token: Token)
    requires Ready(t, c) && !Pending(c) && token.code < YYNTERMINAL
    ensures |c.trace| < |EagerCall(t, c, token).trace|
  {
    CallIsEager(t, c, token);
    CallOutcome(t, c, token);
    SettleExtends(t, Call(t, c, token));
  }

  /** The next call will make the reductions that were put off, find the stack empty and return without
      having looked at its token. */
  ghost predicate Discards(t: Tables, c: Config)
    requires Ready(t, c)
  {
    Pending(c) && |Settle(t, c).stack| == 1
  }

  /** The fused machine refines the textbook one, call by call, with the same actions on the same values in
      the same order, exactly when the reductions left over from the call before do not end in accept:
      then the driver returns without having looked at the token. */
  lemma {:induction false} FusedCallRefines(t: Tables, c: Config, token: Token)
    requires Ready(t, c) && token.code < YYNTERMINAL
    ensures Settle(t, Call(t, c, token)) == EagerCall(t, Settle(t, c), token)
            <==> !Discards(t, c)
    ensures Discards(t, c) ==> Call(t, c, token) == Settle(t, c)
  {
    if !Pending(c) {
      CallIsEager(t, c, token);
    } else {
      CallSettlesFirst(t, c, token);
      CallIsEager(t, Settle(t, c), token);
      EagerCallExtends(t, Settle(t, c), token);
    }
  }

  // ----- Whole runs -----

  /** No fused action of the tables is a reduction to the start symbol. */
  predicate StartNotFused(t: Tables) {
    forall i :: 0 <= i < |t.action| && YY_MIN_SHIFTREDUCE <= t.action[i] <= YY_MAX_SHIFTREDUCE
                && t.action[i] - YY_MIN_SHIFTREDUCE < |t.rules|
                ==> t.rules[t.action[i] - YY_MIN_SHIFTREDUCE].lhs != t.start
  }

  /** A pending code was put on the stack by an entry of the tables. */
  ghost predicate TopFromTable(t: Tables, c: Config)
    requires 1 <= |c.stack|
  {
    Pending(c) ==> exists i: nat :: i < |t.action| && t.action[i] <= YY_MAX_SHIFTREDUCE
                                    && StackCode(t.action[i]) == Top(c).stateno
  }

  lemma {:induction false} StepTopFromTable(t: Tables, c: Config, token: Token)
    requires Valid(t) && Inv(t, c) && token.code < YYNTERMINAL && StepDefined(t, c, token) && TopFromTable(t, c)
    ensures Inv(t, Step(t, c, token)) && TopFromTable(t, Step(t, c, token))
  {
    StepKeepsInv(t, c, token);
    MoveCases(t, c, token);
    if !NextMove(t, c, token).Fail? && |Step(t, c, token).stack| > 1 {
      TopWasStored(t, c, token);
    }
  }

  lemma {:induction false} TopWasStored(t: Tables, c: Config, token: Token)
    requires Valid(t) && Inv(t, c) && token.code < YYNTERMINAL && StepDefined(t, c, token)
    requires !NextMove(t, c, token).Fail? && |Step(t, c, token).stack| > 1
    ensures exists i: nat :: i < |t.action| && t.action[i] <= YY_MAX_SHIFTREDUCE
                             && StackCode(t.action[i]) == Top(Step(t, c, token)).stateno
  {
    MoveCases(t, c, token);
    match NextMove(t, c, token) {
      case Shift(act) =>
        ShiftEntry(t, Top(c).stateno, token.code);
      case Reduce(rule) =>
        var lhs := t.rules[rule].lhs;
        var i := t.reduceOfst[c.stack[|c.stack| - 1 - |t.rules[rule].rhs|].stateno] + lhs;
        assert t.action[i] <= YY_MAX_SHIFTREDUCE;
    }
  }

  lemma {:induction false} ShiftEntry(t: Tables, state: nat, x: nat)
    requires Valid(t) && state < |t.items| && x < YYNTERMINAL
    requires ShiftAction(t, state, x) <= YY_MAX_SHIFTREDUCE
    ensures exists i: nat :: i < |t.action| && t.action[i] == ShiftAction(t, state, x)
  {
    var offset, f := t.shiftOfst[state], Fallback(t, x);
    var y := if Stored(t, offset, x) then x else if f != 0 && Stored(t, offset, f) then f else YYWILDCARD;
    assert Stored(t, offset, y) && Entry(t, offset, y) == ShiftAction(t, state, x);
    assert t.action[offset + y] == ShiftAction(t, state, x);
  }

  lemma {:induction false} SettleKeepsStack(t: Tables, c: Config)
    requires Ready(t, c) && StartNotFused(t) && TopFromTable(t, c) && Pending(c)
    ensures |Settle(t, c).stack| > 1
    decreases Remaining(t, c)
  {
    var rule, next := Top(c).stateno - YY_MIN_REDUCE, Forced(t, c);
    PendingReduces(t, c, ANY_TOKEN);
    MoveCases(t, c, ANY_TOKEN);
    ReduceOutcome(t, c, rule, YYSTACKDEPTH);
    LinkedAtTop(t, c);
    assert |next.stack| > 1;
    StepTopFromTable(t, c, ANY_TOKEN);
    if Pending(next) {
      SettleKeepsStack(t, next);
    }
  }

  ghost function EagerRun(t: Tables, tokens: seq<Token>): (c: Config)
    requires Valid(t) && NoSelfDerivation(t) && AllTokens(tokens)
    ensures Inv(t, c) && !Pending(c)
  {
    if tokens == [] then INITIAL else EagerCall(t, EagerRun(t, tokens[..|tokens|-1]), tokens[|tokens|-1])
  }

  ghost predicate Agrees(t: Tables, tokens: seq<Token>)
    requires Valid(t) && NoSelfDerivation(t) && AllTokens(tokens)
  {
    Settle(t, Run(t, INITIAL, tokens)) == EagerRun(t, tokens)
  }

  /** After each token of a run the two machines, once settled, are in the same configuration. */
  ghost predicate AgreesThroughout(t: Tables, tokens: seq<Token>)
    requires Valid(t) && NoSelfDerivation(t) && AllTokens(tokens)
  {
    Agrees(t, tokens) && (tokens != [] ==> AgreesThroughout(t, tokens[..|tokens|-1]))
  }

  /** No call of a run begins where its token is discarded. */
  ghost predicate NeverDiscards(t: Tables, tokens: seq<Token>)
    requires Valid(t) && NoSelfDerivation(t) && AllTokens(tokens)
  {
    tokens != [] ==>
      !Discards(t, Run(t, INITIAL, tokens[..|tokens|-1])) && NeverDiscards(t, tokens[..|tokens|-1])
  }

  lemma {:induction false} AgreesNext(t: Tables, tokens: seq<Token>)
    requires Valid(t) && NoSelfDerivation(t) && AllTokens(tokens) && tokens != []
    ensures Agrees(t, tokens[..|tokens|-1]) ==>
      (Agrees(t, tokens) <==> !Discards(t, Run(t, INITIAL, tokens[..|tokens|-1])))
  {
    FusedCallRefines(t, Run(t, INITIAL, tokens[..|tokens|-1]), tokens[|tokens|-1]);
  }

  /** Over every run of every valid machine: the two agree all along if and only if no call discards. */
  lemma {:induction false} RunsAgreeExactly(t: Tables, tokens: seq<Token>)
    requires Valid(t) && NoSelfDerivation(t) && AllTokens(tokens)
    ensures AgreesThroughout(t, tokens) <==> NeverDiscards(t, tokens)
  {
    if tokens == [] {
      InitialInv(t);
    } else {
      RunsAgreeExactly(t, tokens[..|tokens|-1]);
      if Agrees(t, tokens[..|tokens|-1]) {
        AgreesNext(t, tokens);
      }
    }
  }

  lemma {:induction false} StartNotFusedNeverDiscards(t: Tables, tokens: seq<Token>)
    requires Valid(t) && NoSelfDerivation(t) && AllTokens(tokens) && StartNotFused(t)
    ensures NeverDiscards(t, tokens)
  {
    if tokens != [] {
      var front := tokens[..|tokens|-1];
      StartNotFusedNeverDiscards(t, front);
      RunTopFromTable(t, front);
      if Pending(Run(t, INITIAL, front)) {
        SettleKeepsStack(t, Run(t, INITIAL, front));
      }
    }
  }

  /** With tables that never fuse a reduction to the start symbol, on every input the driver, once
      settled, is where the textbook machine is. */
  lemma {:induction false} FusedRunRefines(t: Tables, tokens: seq<Token>)
    requires Valid(t) && NoSelfDerivation(t) && AllTokens(tokens) && StartNotFused(t)
    ensures Settle(t, Run(t, INITIAL, tokens)) == EagerRun(t, tokens)
  {
    StartNotFusedNeverDiscards(t, tokens);
    RunsAgreeExactly(t, tokens);
  }

  lemma {:induction false} RunTopFromTable(t: Tables, tokens: seq<Token>)
    requires Valid(t) && NoSelfDerivation(t) && AllTokens(tokens)
    ensures TopFromTable(t, Run(t, INITIAL, tokens))
  {
    var P := (c: Config) => 1 <= |c.stack| && TopFromTable(t, c);
    forall c: Config, token: Token | Inv(t, c) && token.code < YYNTERMINAL && StepDefined(t, c, token) && P(c)
      ensures P(Step(t, c, token))
    {
      StepTopFromTable(t, c, token);
    }
    RunKeeps(t, P, tokens);
  }
}
