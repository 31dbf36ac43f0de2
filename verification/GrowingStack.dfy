/** The build in which the parser's stack has no fixed depth but is reallocated when it is full, and how it
    relates to the build with a fixed depth. */
module GrowingStack {
  import opened LemonTables
  import opened Grammar
  import opened ForestBound
  import opened PushMachine
  import opened ParserRuns
  import Conservation
  import ParserObject

  /** A configuration, the number of entries there is room for, and how often the allocator was asked. */
  datatype Sized = Sized(c: Config, room: nat, asked: nat)

  /** What the allocator answers, request by request; after the last answer it always refuses. */
  type Memory = seq<bool>

  function Grown(room: nat): nat {
    2 * room + 100
  }

  predicate Granted(memory: Memory, request: nat) {
    request < |memory| && memory[request]
  }

  /** If the stack is full, more room is asked for. */
  function AskForRoom(s: Sized, memory: Memory): Sized {
    if |s.c.stack| < s.room then s
    else Sized(s.c, if Granted(memory, s.asked) then Grown(s.room) else s.room, s.asked + 1)
  }

  /** A shift and a reduction by an empty rule need an entry more. */
  predicate NeedsRoom(t: Tables, move: Move) {
    move.Shift? || (move.Reduce? && move.rule < |t.rules| && t.rules[move.rule].rhs == [])
  }

  function GrowStep(t: Tables, s: Sized, token: Token, memory: Memory): Sized
    requires StepDefined(t, s.c, token)
  {
    var s' := if NeedsRoom(t, NextMove(t, s.c, token)) then AskForRoom(s, memory) else s;
    Sized(StepWithin(t, s.c, token, s'.room), s'.room, s'.asked)
  }

  /** An empty rule overflows when there is nothing on the stack but its base. */
  predicate DropsBase(t: Tables, s: Sized, rule: nat, memory: Memory)
    requires rule < |t.rules|
  {
    t.rules[rule].rhs == [] && |s.c.stack| == 1 && s.room <= 1 && !Granted(memory, s.asked)
  }

  // ----- What holds wherever this build can get -----

  ghost predicate Fits(t: Tables, s: Sized) {
    Coherent(t, s.c) && 2 <= s.room && |s.c.stack| <= s.room
  }

  lemma {:induction false} GrowStepFits(t: Tables, s: Sized, token: Token, memory: Memory)
    requires Valid(t) && Fits(t, s) && token.code < YYNTERMINAL
    ensures StepDefined(t, s.c, token) && Fits(t, GrowStep(t, s, token, memory))
  {
    StepCoheres(t, s.c, token, s.room);
    StepCoheres(t, s.c, token, GrowStep(t, s, token, memory).room);
  }

  /** The first request was granted when the parser was allocated. */
  const START: Sized := Sized(INITIAL, YYSTACKDEPTH, 1)

  /** The configuration after some rounds of the loop, each with the token of the call it is part of. */
  ghost function GrowReached(t: Tables, rounds: seq<Token>, memory: Memory): (s: Sized)
    requires Valid(t) && AllTokens(rounds)
    ensures Fits(t, s)
  {
    if rounds == [] then InitialInv(t); START
    else
      var s, token := GrowReached(t, rounds[..|rounds|-1], memory), rounds[|rounds|-1];
      GrowStepFits(t, s, token, memory);
      GrowStep(t, s, token, memory)
  }

  /** Soundness at any depth. */
  lemma {:induction false} GrowReachedSound(t: Tables, rounds: seq<Token>, memory: Memory)
    requires Valid(t) && AllTokens(rounds)
    ensures AcceptsSound(t, GrowReached(t, rounds, memory).c.trace)
  {
    if rounds != [] {
      var s, token := GrowReached(t, rounds[..|rounds|-1], memory), rounds[|rounds|-1];
      GrowReachedSound(t, rounds[..|rounds|-1], memory);
      GrowStepFits(t, s, token, memory);
      StepKeepsAcceptsSound(t, s.c, token, GrowStep(t, s, token, memory).room);
    }
  }

  /** Conservation of values at any depth. */
  lemma {:induction false} GrowReachedConserves(v: Tree, t: Tables, rounds: seq<Token>, memory: Memory)
    requires Valid(t) && AllTokens(rounds)
    ensures Conservation.Conserved(v, GrowReached(t, rounds, memory).c)
  {
    if rounds == [] {
      assert Minors(INITIAL.stack) == [];
    } else {
      var s, token := GrowReached(t, rounds[..|rounds|-1], memory), rounds[|rounds|-1];
      GrowReachedConserves(v, t, rounds[..|rounds|-1], memory);
      GrowStepFits(t, s, token, memory);
      Conservation.StepConserves(v, t, s.c, token, GrowStep(t, s, token, memory).room);
    }
  }

  predicate IsOverflow(e: Event) {
    e.ShiftOverflow? || e.ReduceOverflow?
  }

  predicate NoOverflow(trace: seq<Event>) {
    forall i :: 0 <= i < |trace| ==> !IsOverflow(trace[i])
  }

  /** A step overflows exactly if more room was asked for and refused. */
  lemma {:induction false} GrowStepOverflows(t: Tables, s: Sized, token: Token, memory: Memory)
    requires StepDefined(t, s.c, token) && 1 <= |s.c.stack| <= s.room && NoOverflow(s.c.trace)
    ensures NoOverflow(GrowStep(t, s, token, memory).c.trace)
            <==> GrowStep(t, s, token, memory).asked == s.asked || Granted(memory, s.asked)
  {
    var s' := GrowStep(t, s, token, memory);
    var trace := s'.c.trace;
    assert s'.asked != s.asked && !Granted(memory, s.asked) ==> IsOverflow(trace[|trace|-1]);
  }

  /** All requests after the first were granted. */
  predicate AllGranted(memory: Memory, asked: nat) {
    forall i :: 1 <= i < asked ==> Granted(memory, i)
  }

  lemma {:induction false} AllGrantedNext(memory: Memory, a: nat, a': nat)
    requires 1 <= a <= a' <= a + 1
    ensures AllGranted(memory, a') <==> AllGranted(memory, a) && (a' == a || Granted(memory, a))
  {
    if AllGranted(memory, a') && a' == a + 1 {
      assert Granted(memory, a);
    }
  }

  /** No overflow is ever reported if and only if every request was granted. */
  lemma {:induction false} OverflowsIffRefused(t: Tables, rounds: seq<Token>, memory: Memory)
    requires Valid(t) && AllTokens(rounds)
    ensures 1 <= GrowReached(t, rounds, memory).asked
    ensures NoOverflow(GrowReached(t, rounds, memory).c.trace)
            <==> AllGranted(memory, GrowReached(t, rounds, memory).asked)
  {
    if rounds != [] {
      var s, token := GrowReached(t, rounds[..|rounds|-1], memory), rounds[|rounds|-1];
      OverflowsIffRefused(t, rounds[..|rounds|-1], memory);
      GrowStepFits(t, s, token, memory);
      TraceKept(t, s, token, memory);
      AllGrantedNext(memory, s.asked, GrowStep(t, s, token, memory).asked);
      if NoOverflow(s.c.trace) {
        GrowStepOverflows(t, s, token, memory);
      }
    }
  }

  lemma {:induction false} TraceKept(t: Tables, s: Sized, token: Token, memory: Memory)
    requires Valid(t) && Fits(t, s) && token.code < YYNTERMINAL && StepDefined(t, s.c, token)
    ensures NoOverflow(GrowStep(t, s, token, memory).c.trace) ==> NoOverflow(s.c.trace)
    ensures s.asked <= GrowStep(t, s, token, memory).asked <= s.asked + 1
  {
    StepTraceWithin(t, s.c, token, GrowStep(t, s, token, memory).room);
    if NoOverflow(GrowStep(t, s, token, memory).c.trace) {
      Prefixes(s.c.trace, GrowStep(t, s, token, memory).c.trace);
    }
  }

  lemma {:induction false} Prefixes(trace: seq<Event>, trace': seq<Event>)
    requires |trace| <= |trace'| && trace'[..|trace|] == trace && NoOverflow(trace')
    ensures NoOverflow(trace)
  {
    forall i | 0 <= i < |trace| ensures !IsOverflow(trace[i]) {
      assert trace'[i] == trace'[..|trace|][i];
    }
  }

  // ----- Calls and runs -----

  ghost predicate GrowReady(t: Tables, s: Sized) {
    Valid(t) && NoSelfDerivation(t) && Fits(t, s)
  }

  /** A step that does not end the call has asked for room, or leaves fewer reductions to come. */
  lemma {:induction false} GrowProgress(t: Tables, s: Sized, token: Token, memory: Memory)
    requires GrowReady(t, s) && token.code < YYNTERMINAL && StepDefined(t, s.c, token)
    requires NextMove(t, s.c, token).Reduce? && |GrowStep(t, s, token, memory).c.stack| != 1
    ensures var s' := GrowStep(t, s, token, memory);
      && Fits(t, s')
      && (|| (s.asked < |memory| && s'.asked == s.asked + 1)
          || (s'.asked == s.asked && s'.room == s.room
              && RemainingWithin(t, s'.c, s'.room) < RemainingWithin(t, s.c, s.room)))
  {
    GrowStepFits(t, s, token, memory);
    StepAddsNodeWithin(t, s.c, token, GrowStep(t, s, token, memory).room);
  }

  /** How many answers the allocator has left. */
  function Answers(s: Sized, memory: Memory): nat {
    if s.asked < |memory| then |memory| - s.asked else 0
  }

  /** One call of this build.  It returns, however much memory there is. */
  ghost function GrowCall(t: Tables, s: Sized, token: Token, memory: Memory): (s': Sized)
    requires GrowReady(t, s) && token.code < YYNTERMINAL
    ensures Fits(t, s')
    decreases Answers(s, memory), RemainingWithin(t, s.c, s.room)
  {
    GrowStepFits(t, s, token, memory);
    var next := GrowStep(t, s, token, memory);
    if !NextMove(t, s.c, token).Reduce? || |next.c.stack| == 1 then next
    else GrowProgress(t, s, token, memory); GrowCall(t, next, token, memory)
  }

  ghost function GrowRun(t: Tables, tokens: seq<Token>, memory: Memory): (s: Sized)
    requires Valid(t) && NoSelfDerivation(t) && AllTokens(tokens)
    ensures Fits(t, s)
  {
    if tokens == [] then InitialInv(t); START
    else GrowCall(t, GrowRun(t, tokens[..|tokens|-1], memory), tokens[|tokens|-1], memory)
  }

  // ----- When a value is lost -----

  /** What the next round is about to lose: the value on top, if it reduces by an empty rule, the stack is full,
      and the request for more room will be refused. */
  function GrowStepLoss(t: Tables, s: Sized, token: Token, memory: Memory): seq<Tree>
    requires StepDefined(t, s.c, token)
  {
    if Conservation.OverloadsWithin(t, s.c, token, s.room) && !Granted(memory, s.asked) then [Top(s.c).minor] else []
  }

  lemma {:induction false} GrowStepLosesExactly(v: Tree, t: Tables, s: Sized, token: Token, memory: Memory)
    requires StepDefined(t, s.c, token) && |s.c.stack| <= s.room
    ensures Conservation.Lost(v, GrowStep(t, s, token, memory).c.trace)
            == Conservation.Lost(v, s.c.trace) + Conservation.Count(v, GrowStepLoss(t, s, token, memory))
  {
    Conservation.CountOne(v, Top(s.c).minor);
    Conservation.StepLosesWithin(v, t, s.c, token, GrowStep(t, s, token, memory).room);
  }

  ghost function GrowCallLoss(t: Tables, s: Sized, token: Token, memory: Memory): seq<Tree>
    requires GrowReady(t, s) && token.code < YYNTERMINAL
    decreases Answers(s, memory), RemainingWithin(t, s.c, s.room)
  {
    GrowStepFits(t, s, token, memory);
    var next := GrowStep(t, s, token, memory);
    if !NextMove(t, s.c, token).Reduce? || |next.c.stack| == 1 then GrowStepLoss(t, s, token, memory)
    else GrowProgress(t, s, token, memory); GrowCallLoss(t, next, token, memory)
  }

  lemma {:induction false} GrowCallLosesExactly(v: Tree, t: Tables, s: Sized, token: Token, memory: Memory)
    requires GrowReady(t, s) && token.code < YYNTERMINAL
    ensures Conservation.Lost(v, GrowCall(t, s, token, memory).c.trace)
            == Conservation.Lost(v, s.c.trace) + Conservation.Count(v, GrowCallLoss(t, s, token, memory))
    decreases Answers(s, memory), RemainingWithin(t, s.c, s.room)
  {
    GrowStepFits(t, s, token, memory);
    GrowStepLosesExactly(v, t, s, token, memory);
    var next := GrowStep(t, s, token, memory);
    if NextMove(t, s.c, token).Reduce? && |next.c.stack| != 1 {
      GrowProgress(t, s, token, memory);
      GrowCallLosesExactly(v, t, next, token, memory);
    }
  }

  ghost function GrowRunLoss(t: Tables, tokens: seq<Token>, memory: Memory): seq<Tree>
    requires Valid(t) && NoSelfDerivation(t) && AllTokens(tokens)
  {
    if tokens == [] then []
    else
      var front, last := tokens[..|tokens|-1], tokens[|tokens|-1];
      GrowRunLoss(t, front, memory) + GrowCallLoss(t, GrowRun(t, front, memory), last, memory)
  }

  lemma {:induction false} GrowRunLosesExactly(v: Tree, t: Tables, tokens: seq<Token>, memory: Memory)
    requires Valid(t) && NoSelfDerivation(t) && AllTokens(tokens)
    ensures Conservation.Lost(v, GrowRun(t, tokens, memory).c.trace)
            == Conservation.Count(v, GrowRunLoss(t, tokens, memory))
  {
    if tokens != [] {
      var front, last := tokens[..|tokens|-1], tokens[|tokens|-1];
      GrowRunLosesExactly(v, t, front, memory);
      GrowCallLosesExactly(v, t, GrowRun(t, front, memory), last, memory);
      Conservation.CountConcat(v, GrowRunLoss(t, front, memory),
                               GrowCallLoss(t, GrowRun(t, front, memory), last, memory));
    }
  }

  lemma {:induction false} GrowCallConserves(v: Tree, t: Tables, s: Sized, token: Token, memory: Memory)
    requires GrowReady(t, s) && token.code < YYNTERMINAL && Conservation.Conserved(v, s.c)
    ensures Conservation.Conserved(v, GrowCall(t, s, token, memory).c)
    decreases Answers(s, memory), RemainingWithin(t, s.c, s.room)
  {
    hide Conservation.Conserved, Valid, NoSelfDerivation;
    GrowStepFits(t, s, token, memory);
    var next := GrowStep(t, s, token, memory);
    Conservation.StepConserves(v, t, s.c, token, next.room);
    if NextMove(t, s.c, token).Reduce? && |next.c.stack| != 1 {
      GrowProgress(t, s, token, memory);
      GrowCallConserves(v, t, next, token, memory);
    }
  }

  lemma {:induction false} GrowRunConserves(v: Tree, t: Tables, tokens: seq<Token>, memory: Memory)
    requires Valid(t) && NoSelfDerivation(t) && AllTokens(tokens)
    ensures Conservation.Conserved(v, GrowRun(t, tokens, memory).c)
  {
    if tokens == [] {
      assert Minors(INITIAL.stack) == [];
    } else {
      GrowRunConserves(v, t, tokens[..|tokens|-1], memory);
      GrowCallConserves(v, t, GrowRun(t, tokens[..|tokens|-1], memory), tokens[|tokens|-1], memory);
    }
  }

  /** After the parser is freed, a value was used or destroyed as often as it was pushed, if and only if no call
      began where it had to lose that value. */
  lemma {:induction false} GrowFreedBalances(v: Tree, t: Tables, tokens: seq<Token>, memory: Memory)
    requires Valid(t) && NoSelfDerivation(t) && AllTokens(tokens)
    ensures Conservation.AllAccounted(v, Conservation.Freed(GrowRun(t, tokens, memory).c).trace)
            <==> v !in GrowRunLoss(t, tokens, memory)
  {
    var c := GrowRun(t, tokens, memory).c;
    GrowRunConserves(v, t, tokens, memory);
    Conservation.BooksUnwind(v, c.trace, c.stack);
    GrowRunLosesExactly(v, t, tokens, memory);
    Conservation.CountPositive(v, GrowRunLoss(t, tokens, memory));
  }

  // ----- The two builds agree -----

  /** Up to an overflow, or up to the end if memory is never to be had after the start. */
  ghost predicate Comparable(trace: seq<Event>, memory: Memory) {
    NoOverflow(trace) || forall i :: 1 <= i < |memory| ==> !memory[i]
  }

  /** The growing build is where the fixed one is and has not grown. */
  ghost predicate Same(s: Sized, c: Config) {
    s.c == c && s.room == YYSTACKDEPTH && 1 <= s.asked
  }

  lemma {:induction false} StepsAgree(t: Tables, s: Sized, c: Config, token: Token, memory: Memory)
    requires Same(s, c) && StepDefined(t, c, token) && Comparable(Step(t, c, token).trace, memory)
    ensures Same(GrowStep(t, s, token, memory), Step(t, c, token))
  {
    var trace := Step(t, c, token).trace;
    assert NoOverflow(trace) ==> !IsOverflow(trace[|trace|-1]);
  }

  lemma {:induction false} ComparableEarlier(trace: seq<Event>, trace': seq<Event>, memory: Memory)
    requires |trace| <= |trace'| && trace'[..|trace|] == trace && Comparable(trace', memory)
    ensures Comparable(trace, memory)
  {
    if NoOverflow(trace') {
      Prefixes(trace, trace');
    }
  }

  lemma {:induction false} CallsAgree(t: Tables, s: Sized, c: Config, token: Token, memory: Memory)
    requires Ready(t, c) && Same(s, c) && GrowReady(t, s) && token.code < YYNTERMINAL
    requires Comparable(Call(t, c, token).trace, memory)
    ensures Same(GrowCall(t, s, token, memory), Call(t, c, token))
    decreases Remaining(t, c)
  {
    StepKeepsInv(t, c, token);
    var next := Step(t, c, token);
    if Done(t, c, token) {
      StepsAgree(t, s, c, token, memory);
    } else {
      StepAddsNode(t, c, token);
      CallOutcome(t, next, token);
      ComparableEarlier(next.trace, Call(t, next, token).trace, memory);
      StepsAgree(t, s, c, token, memory);
      GrowStepFits(t, s, token, memory);
      CallsAgree(t, GrowStep(t, s, token, memory), next, token, memory);
    }
  }

  /** Over every run in which the fixed stack does not overflow, the growing one ends in the same
      configuration and never grows; and over every run at all, if it never can grow. */
  lemma {:induction false} RunsAgree(t: Tables, tokens: seq<Token>, memory: Memory)
    requires Valid(t) && NoSelfDerivation(t) && AllTokens(tokens)
    requires Comparable(Run(t, INITIAL, tokens).trace, memory)
    ensures Same(GrowRun(t, tokens, memory), Run(t, INITIAL, tokens))
  {
    if tokens != [] {
      var front, last := tokens[..|tokens|-1], tokens[|tokens|-1];
      var mid := Run(t, INITIAL, front);
      CallOutcome(t, mid, last);
      ComparableEarlier(mid.trace, Run(t, INITIAL, tokens).trace, memory);
      RunsAgree(t, front, memory);
      CallsAgree(t, GrowRun(t, front, memory), mid, last, memory);
    }
  }

  // ----- The parser object of this build -----

  class GrowingParser {
    const t: Tables
    const memory: Memory
    /** The one entry that is part of the object itself, for want of memory. */
    const yystk0: array<StackEntry>
    var yystack: array<StackEntry>
    var yystksz: nat
    /** Index of the top entry; -1 if the base itself has been dropped. */
    var yytos: int
    var asked: nat
    ghost var trace: seq<Event>

    ghost predicate Laid()
      reads this, yystack
    {
      yystk0.Length == 1 && yystack.Length == yystksz >= 1 && yystack[0] == BASE
    }

    ghost predicate Ok()
      reads this, yystack
    {
      Laid() && 0 <= yytos < yystksz
    }

    ghost function Now(): Sized
      reads this, yystack
      requires Ok()
    {
      Sized(Config(yystack[..yytos + 1], trace), yystksz, asked)
    }

    /** Without memory at the start, the stack is the one entry inside the object. */
    constructor Alloc(t: Tables, memory: Memory)
      ensures Ok() && fresh(yystack) && fresh(yystk0) && this.t == t && this.memory == memory
      ensures Now() == if Granted(memory, 0) then START else Sized(INITIAL, 1, 1)
    {
      this.t, this.memory := t, memory;
      yystk0 := new StackEntry[1](_ => BASE);
      yystack := yystk0;
      yystksz := 1;
      yytos := 0;
      asked := 1;
      trace := [];
      new;
      if Granted(memory, 0) {
        yystack := new StackEntry[Grown(0)](_ => BASE);
        yystksz := Grown(0);
      }
      assert yystack[..1] == [BASE];
    }

    /** Every entry and the index of the top stay; only the room changes, if there is memory. */
    method GrowStack() returns (failed: bool)
      requires Laid()
      modifies this`yystack, this`yystksz, this`asked
      ensures Laid() && failed == !Granted(memory, old(asked)) && asked == old(asked) + 1
      ensures if failed then yystack == old(yystack) && yystksz == old(yystksz)
              else
                fresh(yystack) && yystksz == 2 * old(yystksz) + 100 && yystack[..old(yystksz)] == old(yystack[..])
    {
      var newSize := yystksz * 2 + 100;
      failed := !Granted(memory, asked);
      asked := asked + 1;
      if !failed {
        var kept := yystack[..];
        var pNew := new StackEntry[newSize](i => if 0 <= i < |kept| then kept[i] else BASE);
        assert pNew[..yystksz] == kept;
        yystack := pNew;
        yystksz := newSize;
      }
    }

    /** The top entry is dropped, even the base, and the others are unwound. */
    method StackOverflow(ghost report: Event)
      requires Laid() && 0 <= yytos <= yystksz
      modifies this`yytos, this`trace
      ensures yytos == if old(yytos) == 0 then -1 else 0
      ensures trace == old(trace) + Unwind(old(yystack[..yytos])) + [report]
    {
      ghost var all := Unwind(yystack[..yytos]);
      yytos := yytos - 1;
      while yytos > 0
        invariant Laid() && yytos < yystksz && if old(yytos) == 0 then yytos == -1 else 0 <= yytos
        invariant trace + Unwind(yystack[..yytos + 1]) == old(trace) + all
      {
        assert yystack[..yytos + 1][..yytos] == yystack[..yytos];
        assert trace + Unwind(yystack[..yytos + 1])
            == trace + [Destroyed(yystack[yytos].minor)] + Unwind(yystack[..yytos]);
        trace := trace + [Destroyed(yystack[yytos].minor)];
        yytos := yytos - 1;
      }
      assert Unwind(yystack[..yytos + 1]) == [];
      trace := trace + [report];
    }

    method Shift(newState: nat, token: Token)
      requires Ok()
      modifies this, yystack
      ensures yystack == old(yystack) || fresh(yystack)
      ensures Ok() && var s := AskForRoom(old(Now()), memory);
              Now() == Sized(ShiftWithin(old(Now()).c, newState, token, s.room), s.room, s.asked)
    {
      ghost var before := Now().c.stack;
      yytos := yytos + 1;
      if yytos >= yystksz {
        var failed := GrowStack();
        if failed {
          StackOverflow(ShiftOverflow);
          assert yystack[..1] == [BASE];
          return;
        }
        assert yystack[..yytos] == before;
      }
      var code := newState;
      if code > YY_MAX_SHIFT {
        code := code + YY_MIN_REDUCE - YY_MIN_SHIFTREDUCE;
      }
      yystack[yytos] := StackEntry(code, token.code, Leaf(token));
      trace := trace + [Shifted(token)];
      assert yystack[..yytos + 1] == before + [yystack[yytos]];
    }

    method Reduce(ruleno: nat)
      requires Ok() && |t.lookahead| == |t.action| && Reducible(t, Now().c.stack, ruleno)
      modifies this, yystack
      ensures yystack == old(yystack) || fresh(yystack)
      ensures if DropsBase(t, old(Now()), ruleno, memory) then yytos == -1
              else Ok() && var s := if t.rules[ruleno].rhs == [] then AskForRoom(old(Now()), memory) else old(Now());
                Now() == Sized(ReduceWithin(t, old(Now()).c, ruleno, s.room), s.room, s.asked)
    {
      ghost var before := Now().c.stack;
      if |t.rules[ruleno].rhs| == 0 && yytos >= yystksz - 1 {
        var failed := GrowStack();
        if failed {
          ghost var lost := yystack[yytos].minor;
          assert yystack[..yytos] == before[..|before|-1];
          StackOverflow(ReduceOverflow(lost));
          assert yystack[..1] == [BASE];
          return;
        }
        assert yystack[..yytos + 1] == before;
      }
      Replace(ruleno);
    }

    /** The rest of a reduction, when there is room for its result. */
    method Replace(ruleno: nat)
      requires Ok() && |t.lookahead| == |t.action| && Reducible(t, Now().c.stack, ruleno)
      requires t.rules[ruleno].rhs == [] ==> yytos < yystksz - 1
      modifies this`yytos, this`trace, yystack
      ensures Ok() && Now() == old(Now()).(c := Made(t, old(Now()).c, ruleno))
    {
      ghost var before := Now().c;
      var yysize := |t.rules[ruleno].rhs|;
      var args := TopMinors(yystack[..yytos + 1], yysize);
      var below := yytos - yysize;
      var yygoto := t.rules[ruleno].lhs;
      var act := Goto(t, yystack[below].stateno, yygoto);
      assert act == GotoOf(t, before, ruleno);
      if act <= YY_MAX_SHIFTREDUCE {
        ghost var after := Made(t, before, ruleno);
        if act > YY_MAX_SHIFT {
          act := act + YY_MIN_REDUCE - YY_MIN_SHIFTREDUCE;
        }
        var e := StackEntry(act, yygoto, Node(ruleno, args));
        assert after.stack == before.stack[..|before.stack| - yysize] + [e];
        yytos := below + 1;
        yystack[yytos] := e;
        trace := trace + [Reduced(ruleno, args)];
        assert yystack[..yytos + 1] == after.stack;
      } else {
        yytos := below;
        trace := trace + [Accepted(ruleno, args)];
        assert yystack[..yytos + 1] == before.stack[..|before.stack| - yysize];
      }
    }

    /** The body of the loop of a call: one action.  Says whether the loop stops. */
    method Round(token: Token) returns (stop: bool)
      requires Ok() && WellFormed(t) && StepDefined(t, Now().c, token) && token.code < YYNTERMINAL && 2 <= yystksz
      modifies this, yystack
      ensures yystack == old(yystack) || fresh(yystack)
      ensures Ok() && Now() == GrowStep(t, old(Now()), token, memory)
      ensures stop <==> !NextMove(t, old(Now()).c, token).Reduce? || |Now().c.stack| == 1
    {
      var yymajor := token.code;
      var act, _ := ParserObject.FindShiftAction(t, yystack[yytos].stateno, yymajor);
      if act <= YY_MAX_SHIFTREDUCE {
        Shift(act, token);
        yymajor := YYNOCODE;
      } else if act <= YY_MAX_REDUCE {
        Reduce(act - YY_MIN_REDUCE);
      } else {
        assert act == YY_ERROR_ACTION;
        trace := trace + [SyntaxError(token)];
        trace := trace + [Discarded(token)];
        yymajor := YYNOCODE;
      }
      stop := !(yymajor != YYNOCODE && yytos > 0);
    }

    /** One call of the parser with one token. */
    method Feed(token: Token)
      requires Ok() && GrowReady(t, Now()) && token.code < YYNTERMINAL
      modifies this, yystack
      ensures yystack == old(yystack) || fresh(yystack)
      ensures Ok() && Now() == GrowCall(t, old(Now()), token, memory)
    {
      var stop := false;
      while !stop
        invariant Ok() && (yystack == old(yystack) || fresh(yystack))
        invariant !stop ==> GrowReady(t, Now())
        invariant if stop then Now() == GrowCall(t, old(Now()), token, memory)
                  else GrowCall(t, Now(), token, memory) == GrowCall(t, old(Now()), token, memory)
        decreases !stop, Answers(Now(), memory), if stop then 0 else RemainingWithin(t, Now().c, Now().room)
      {
        ghost var s := Now();
        GrowStepFits(t, s, token, memory);
        stop := Round(token);
        if !stop {
          GrowProgress(t, s, token, memory);
        }
      }
    }
  }
}
