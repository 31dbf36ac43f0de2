/** The parser object: a fixed array of stack entries and the index of its top, changed in place.
    Every method is tied to the function of the abstract machine that it computes. */
module ParserObject {
  import opened LemonTables
  import opened Grammar
  import opened PushMachine
  import opened ParserRuns
  import Conservation

  /** The action of the entry on top of the stack.  `rounds` counts how often the loop goes round. */
  method FindShiftAction(t: Tables, stateno: nat, lookahead: nat) returns (act: nat, ghost rounds: nat)
    requires WellFormed(t) && lookahead < YYNTERMINAL
    requires stateno < |t.shiftOfst| || YY_MIN_REDUCE <= stateno
    ensures act == ActionFor(t, stateno, lookahead)
    ensures rounds <= 2
  {
    rounds := 0;
    if stateno >= YY_MIN_REDUCE {
      return stateno, 0;
    }
    var x := lookahead;
    while true
      invariant x == lookahead || (x == Fallback(t, lookahead) && x != 0)
      invariant x != lookahead ==> !Stored(t, t.shiftOfst[stateno], lookahead)
      invariant rounds == 0 || (rounds == 1 && x != lookahead)
      decreases Fallback(t, x)
    {
      rounds := rounds + 1;
      var i := t.shiftOfst[stateno] + x;
      if i < 0 || i >= |t.action| || t.lookahead[i] != x {
        if x < |t.fallback| && t.fallback[x] != 0 {
          x := t.fallback[x];
          continue;
        }
        // No lower bound is tested: the least offset plus the wildcard is not negative.
        var j := i - x + YYWILDCARD;
        if j < |t.action| && t.lookahead[j] == YYWILDCARD && x > 0 {
          return t.action[j], rounds;
        }
        return t.default[stateno], rounds;
      } else {
        return t.action[i], rounds;
      }
    }
  }

  class Parser {
    const t: Tables
    const yystack: array<StackEntry>
    /** Index of the top entry.  It is YYSTACKDEPTH for a moment while an overflow is handled. */
    var yytos: nat
    /** What the parser has done to the rest of the program so far. */
    ghost var trace: seq<Event>

    ghost predicate Ok()
      reads this, yystack
    {
      yystack.Length == YYSTACKDEPTH && yytos < YYSTACKDEPTH && yystack[0] == BASE
    }

    ghost function Cfg(): Config
      reads this, yystack
      requires Ok()
    {
      Config(yystack[..yytos + 1], trace)
    }

    constructor Alloc(t: Tables)
      ensures Ok() && fresh(yystack) && this.t == t
      ensures Cfg() == INITIAL
    {
      this.t := t;
      yystack := new StackEntry[YYSTACKDEPTH](i => BASE);
      yytos := 0;
      trace := [];
      new;
      assert yystack[..1] == [BASE];
    }

    method PopParserStack()
      requires Ok() && 0 < yytos
      modifies this
      ensures Ok() && yytos == old(yytos) - 1
      ensures trace == old(trace) + [Destroyed(yystack[old(yytos)].minor)]
    {
      var top := yystack[yytos];
      yytos := yytos - 1;
      trace := trace + [Destroyed(top.minor)];
    }

    /** Pops everything above the base, with the destructors. */
    method PopAll()
      requires Ok()
      modifies this
      ensures Ok() && yytos == 0
      ensures trace == old(trace) + Unwind(old(yystack[..yytos + 1]))
    {
      ghost var before := trace;
      ghost var all := Unwind(yystack[..yytos + 1]);
      while yytos > 0
        invariant Ok()
        invariant trace + Unwind(yystack[..yytos + 1]) == before + all
      {
        assert yystack[..yytos + 1][..yytos] == yystack[..yytos];
        assert trace + Unwind(yystack[..yytos + 1])
            == trace + [Destroyed(yystack[yytos].minor)] + Unwind(yystack[..yytos]);
        PopParserStack();
      }
      assert trace + Unwind(yystack[..1]) == trace;
    }

    /** The top entry is dropped first: on a shift that is the slot that does not exist, on a reduction
        by an empty rule it is an entry in use. */
    method StackOverflow(ghost report: Event)
      requires yystack.Length == YYSTACKDEPTH && 0 < yytos <= YYSTACKDEPTH && yystack[0] == BASE
      modifies this
      ensures Ok() && yytos == 0
      ensures trace == old(trace) + Unwind(old(yystack[..yytos])) + [report]
    {
      yytos := yytos - 1;
      PopAll();
      trace := trace + [report];
    }

    method Shift(newState: nat, token: Token)
      requires Ok()
      modifies this, yystack
      ensures Ok() && Cfg() == ShiftStep(old(Cfg()), newState, token)
    {
      yytos := yytos + 1;
      if yytos >= YYSTACKDEPTH {
        StackOverflow(ShiftOverflow);
        assert yystack[..1] == [BASE];
        return;
      }
      var code := newState;
      if code > YY_MAX_SHIFT {
        code := code + YY_MIN_REDUCE - YY_MIN_SHIFTREDUCE;
      }
      yystack[yytos] := StackEntry(code, token.code, Leaf(token));
      trace := trace + [Shifted(token)];
      assert yystack[..yytos + 1] == old(yystack[..yytos + 1]) + [yystack[yytos]];
    }

    method Reduce(ruleno: nat)
      requires Ok() && |t.lookahead| == |t.action| && Reducible(t, Cfg().stack, ruleno)
      modifies this, yystack
      ensures Ok() && Cfg() == ReduceStep(t, old(Cfg()), ruleno)
    {
      ghost var before := Cfg();
      if |t.rules[ruleno].rhs| == 0 && yytos >= YYSTACKDEPTH - 1 {
        ghost var lost := yystack[yytos].minor;
        assert yystack[..yytos] == before.stack[..|before.stack|-1];
        StackOverflow(ReduceOverflow(lost));
        assert yystack[..1] == [BASE];
        return;
      }
      Replace(ruleno);
    }

    /** The rest of a reduction, when there is room for its result. */
    method Replace(ruleno: nat)
      requires Ok() && |t.lookahead| == |t.action| && Reducible(t, Cfg().stack, ruleno)
      requires !Overfills(t, Cfg(), ruleno, YYSTACKDEPTH)
      modifies this, yystack
      ensures Ok() && Cfg() == Made(t, old(Cfg()), ruleno)
    {
      ghost var before := Cfg();
      var yysize := |t.rules[ruleno].rhs|;
      var args := TopMinors(yystack[..yytos + 1], yysize);
      var below := yytos - yysize;
      var yygoto := t.rules[ruleno].lhs;
      var act := Goto(t, yystack[below].stateno, yygoto);
      assert act == GotoOf(t, before, ruleno);
      if act <= YY_MAX_SHIFTREDUCE {
        ghost var after := Made(t, before, ruleno);
        if act > YY_MAX_SHIFT {
          act := act + YY_MIN_REDUCE - YY_MIN_SHIFTREDUCE;
        }
        var e := StackEntry(act, yygoto, Node(ruleno, args));
        assert after.stack == before.stack[..|before.stack| - yysize] + [e];
        yytos := below + 1;
        yystack[yytos] := e;
        trace := trace + [Reduced(ruleno, args)];
        assert yystack[..yytos + 1] == after.stack;
      } else {
        yytos := below;
        trace := trace + [Accepted(ruleno, args)];
        assert yystack[..yytos + 1] == before.stack[..|before.stack| - yysize];
        // The assert of the accept action.
        assert yytos == 0;
      }
    }

    /** The body of the loop of a call: one action.  Says whether the loop stops. */
    method Round(token: Token) returns (stop: bool)
      requires Ok() && WellFormed(t) && StepDefined(t, Cfg(), token) && token.code < YYNTERMINAL
      modifies this, yystack
      ensures Ok() && Cfg() == Step(t, old(Cfg()), token)
      ensures stop == Done(t, old(Cfg()), token)
    {
      var yymajor := token.code;
      var act, _ := FindShiftAction(t, yystack[yytos].stateno, yymajor);
      if act <= YY_MAX_SHIFTREDUCE {
        Shift(act, token);
        yymajor := YYNOCODE;
      } else if act <= YY_MAX_REDUCE {
        Reduce(act - YY_MIN_REDUCE);
      } else {
        assert act == YY_ERROR_ACTION;
        trace := trace + [SyntaxError(token)];
        trace := trace + [Discarded(token)];
        yymajor := YYNOCODE;
      }
      stop := !(yymajor != YYNOCODE && yytos > 0);
    }

    /** One call of the parser with one token; `rounds` counts how often its loop goes round. */
    method Feed(token: Token) returns (ghost rounds: nat)
      requires Ok() && Ready(t, Cfg()) && token.code < YYNTERMINAL
      modifies this, yystack
      ensures Ok() && Cfg() == Call(t, old(Cfg()), token)
      ensures rounds == Rounds(t, old(Cfg()), token)
    {
      var stop := false;
      rounds := 0;
      while !stop
        invariant Ok() && Ready(t, Cfg())
        invariant if stop then Cfg() == Call(t, old(Cfg()), token) && rounds == Rounds(t, old(Cfg()), token)
                  else
                    && Call(t, Cfg(), token) == Call(t, old(Cfg()), token)
                    && rounds + Rounds(t, Cfg(), token) == Rounds(t, old(Cfg()), token)
        decreases !stop, Remaining(t, Cfg())
      {
        StepKeepsInv(t, Cfg(), token);
        if !Done(t, Cfg(), token) {
          StepAddsNode(t, Cfg(), token);
        }
        stop := Round(token);
        rounds := rounds + 1;
      }
    }

    method Free()
      requires Ok()
      modifies this
      ensures Ok() && Cfg() == Conservation.Freed(old(Cfg()))
    {
      PopAll();
      assert yystack[..1] == [BASE];
    }
  }
}
