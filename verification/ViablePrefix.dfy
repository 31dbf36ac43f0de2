/** The correct-prefix property: the tokens that the driver has taken can always be completed to a sentence.

    Soundness is about what is accepted; this is about everything taken before an error is found.  It needs more
    of the item sets than that they are carried along: each item with its dot at the start must be there because
    the dot of another item is before its left-hand side, and so on up to the start symbol.
 */
module ViablePrefix {
  import opened LemonTables
  import opened Grammar
  import opened PushMachine
  import opened ParserRuns
  import opened GrowingStack

  /** The dot of the item is before symbol x. */
  predicate Awaits(t: Tables, it: Item, x: nat) {
    it.rule < |t.rules| && it.dot < |t.rules[it.rule].rhs| && x in t.rules[it.rule].rhs[it.dot]
  }

  /** Rule r begins in state s because its left-hand side is what a sentence is, or what an item of the state
      awaits: one whose dot has been moved, or one that itself begins there with n - 1 steps fewer. */
  ghost predicate BeginsIn(t: Tables, s: nat, r: nat, n: nat)
    requires s < |t.items| && r < |t.rules|
    decreases n
  {
    || (s == 0 && t.rules[r].lhs == t.start)
    || exists it :: it in t.items[s] && Awaits(t, it, t.rules[r].lhs)
                    && (it.dot > 0 || (n > 0 && BeginsIn(t, s, it.rule, n - 1)))
  }

  ghost predicate Begins(t: Tables, s: nat, r: nat)
    requires s < |t.items| && r < |t.rules|
  {
    exists n: nat :: BeginsIn(t, s, r, n)
  }

  ghost predicate ItemCalledFor(t: Tables, s: nat, it: Item)
    requires s < |t.items|
  {
    it.rule < |t.rules| && it.dot <= |t.rules[it.rule].rhs| && (it.dot == 0 ==> Begins(t, s, it.rule))
  }

  /** Every item is called for. */
  ghost predicate Closed(t: Tables) {
    forall s :: 0 <= s < |t.items| ==> t.items[s] != {} && forall it :: it in t.items[s] ==> ItemCalledFor(t, s, it)
  }

  predicate Terminals(z: seq<nat>) {
    forall i :: 0 <= i < |z| ==> z[i] < YYNTERMINAL
  }

  ghost predicate Yielding(t: Tables, xs: set<nat>) {
    exists x, z :: x in xs && Terminals(z) && Derives(t, [x], z)
  }

  /** Every symbol can become tokens. */
  ghost predicate Productive(t: Tables) {
    forall r, j :: 0 <= r < |t.rules| && 0 <= j < |t.rules[r].rhs| ==> Yielding(t, t.rules[r].rhs[j])
  }

  lemma BeginsStart(t: Tables, r: nat)
    requires 0 < |t.items| && r < |t.rules| && t.rules[r].lhs == t.start
    ensures BeginsIn(t, 0, r, 0)
  {
  }

  lemma BeginsAfter(t: Tables, s: nat, it: Item, r: nat, n: nat)
    requires s < |t.items| && r < |t.rules| && it in t.items[s] && Awaits(t, it, t.rules[r].lhs)
    requires it.dot > 0 || (n > 0 && BeginsIn(t, s, it.rule, n - 1))
    ensures BeginsIn(t, s, r, n)
  {
  }

  lemma {:induction false} TokenYields(t: Tables, x: nat)
    requires x < YYNTERMINAL
    ensures Yielding(t, {x})
  {
    DerivesRefl(t, [x]);
    assert x in {x} && Terminals([x]);
  }

  lemma {:induction false} UnitYields(t: Tables, r: nat, y: nat)
    requires r < |t.rules| && t.rules[r].rhs == [{y}] && Yielding(t, {y})
    ensures Yielding(t, {t.rules[r].lhs})
  {
    var lhs := t.rules[r].lhs;
    var x, z :| x in {y} && Terminals(z) && Derives(t, [x], z);
    assert Matches(t.rules[r], [y]);
    RewriteOnce(t, lhs, [y]);
    DerivesTransitive(t, [lhs], [y], z);
    assert lhs in {lhs};
  }

  /** What follows the dot can become tokens. */
  lemma {:induction false} RestYields(t: Tables, r: nat, d: nat) returns (w: seq<nat>, z: seq<nat>)
    requires Productive(t) && r < |t.rules| && d <= |t.rules[r].rhs|
    ensures |w| == |t.rules[r].rhs| - d && (forall i :: 0 <= i < |w| ==> w[i] in t.rules[r].rhs[d + i])
    ensures Terminals(z) && Derives(t, w, z)
    decreases |t.rules[r].rhs| - d
  {
    hide DerivesIn, Derives;
    if d == |t.rules[r].rhs| {
      w, z := [], [];
      DerivesRefl(t, []);
    } else {
      assert Yielding(t, t.rules[r].rhs[d]);
      var x, y :| x in t.rules[r].rhs[d] && Terminals(y) && Derives(t, [x], y);
      var w', z' := RestYields(t, r, d + 1);
      w, z := [x] + w', y + z';
      DerivesConcat(t, [x], y, w', z');
    }
  }

  /** The left-hand side of an item derives what is on the stack for the part before the dot, and tokens. */
  lemma {:induction false} ItemDerives(t: Tables, r: nat, acts: seq<nat>) returns (z: seq<nat>)
    requires Productive(t) && r < |t.rules| && |acts| <= |t.rules[r].rhs|
    requires forall i :: 0 <= i < |acts| ==> ActsAsOneOf(t, acts[i], t.rules[r].rhs[i])
    ensures Terminals(z) && Derives(t, [t.rules[r].lhs], acts + z)
  {
    hide DerivesIn, ActsAs;
    var rule := t.rules[r];
    var v: seq<nat> := seq(|acts|, i requires 0 <= i < |acts| => var x :| x in rule.rhs[i] && ActsAs(t, acts[i], x); x);
    var w, y := RestYields(t, r, |acts|);
    z := y;
    assert Matches(rule, v + w);
    RewriteOnce(t, rule.lhs, v + w);
    SymbolwiseDerives(t, v, acts);
    DerivesConcat(t, v, acts, w, z);
    DerivesTransitive(t, [rule.lhs], v + w, acts + z);
  }

  /** A derivation goes on within its context. */
  lemma {:induction false} Deepen(t: Tables, a: seq<nat>, p: seq<nat>, x: nat, q: seq<nat>, b: seq<nat>)
    requires Derives(t, a, p + [x] + q) && Derives(t, [x], b)
    ensures Derives(t, a, p + b + q)
  {
    hide Derives;
    DerivesRefl(t, p);
    DerivesRefl(t, q);
    DerivesConcat(t, p, p, [x], b);
    DerivesConcat(t, p + [x], p + b, q, q);
    DerivesTransitive(t, a, p + [x] + q, p + b + q);
  }

  /** The symbols above the base up to entry k. */
  ghost function UpTo(stack: seq<StackEntry>, k: nat): (majors: seq<nat>)
    requires k < |stack|
    ensures |majors| == k
  {
    seq(k, i requires 0 <= i < k => stack[i + 1].major)
  }

  /** What is on the stack for the part of an item before its dot. */
  ghost function Behind(stack: seq<StackEntry>, k: nat, dot: nat): (majors: seq<nat>)
    requires dot <= k < |stack|
    ensures UpTo(stack, k) == UpTo(stack, k - dot) + majors && |majors| == dot
  {
    UpTo(stack, k)[k - dot..]
  }

  /** From the left-hand side of an item to what is on the stack for it, and to tokens. */
  lemma {:induction false} OverItem(t: Tables, stack: seq<StackEntry>, k: nat, it: Item, more: seq<nat>,
                                    below: seq<nat>)
    returns (z: seq<nat>)
    requires Productive(t) && it.dot <= k < |stack|
    requires it.rule < |t.rules| && it.dot + |more| <= |t.rules[it.rule].rhs|
    requires forall i :: 0 <= i < it.dot ==> ActsAsOneOf(t, stack[k - it.dot + 1 + i].major, t.rules[it.rule].rhs[i])
    requires forall i :: 0 <= i < |more| ==> ActsAsOneOf(t, more[i], t.rules[it.rule].rhs[it.dot + i])
    requires Terminals(below) && Derives(t, [t.start], UpTo(stack, k - it.dot) + [t.rules[it.rule].lhs] + below)
    ensures Terminals(z) && Derives(t, [t.start], UpTo(stack, k) + more + z)
  {
    hide Derives, ActsAsOneOf, Productive;
    var acts := Behind(stack, k, it.dot) + more;
    forall i | 0 <= i < |acts| ensures ActsAsOneOf(t, acts[i], t.rules[it.rule].rhs[i]) {
      if i < it.dot {
        assert acts[i] == stack[k - it.dot + 1 + i].major;
      } else {
        assert acts[i] == more[i - it.dot];
      }
    }
    var y := ItemDerives(t, it.rule, acts);
    Deepen(t, [t.start], UpTo(stack, k - it.dot), t.rules[it.rule].lhs, below, acts + y);
    z := y + below;
    Regrouped(UpTo(stack, k - it.dot), Behind(stack, k, it.dot), more, y, below);
  }

  lemma Regrouped(a: seq<nat>, b: seq<nat>, c: seq<nat>, d: seq<nat>, e: seq<nat>)
    ensures a + (b + c + d) + e == a + b + c + (d + e)
  {
  }

  lemma {:induction false} StartBegins(t: Tables, s: nat, r: nat)
    requires Closed(t) && s < |t.items| && Item(r, 0) in t.items[s]
    ensures r < |t.rules| && Begins(t, s, r)
  {
    assert ItemCalledFor(t, s, Item(r, 0));
  }

  lemma {:induction false} BelowIsState(t: Tables, stack: seq<StackEntry>, k: nat)
    requires Chained(t, stack) && k + 1 < |stack|
    ensures stack[k].stateno < |t.items|
  {
    assert LinkedAt(t, stack, k + 1);
  }

  /** The symbols up to an entry, the left-hand side of a rule that begins there, and some tokens can be derived
      from the start symbol. */
  lemma {:induction false} LeftContext(t: Tables, stack: seq<StackEntry>, k: nat, r: nat, n: nat) returns (z: seq<nat>)
    requires Valid(t) && Closed(t) && Productive(t) && Chained(t, stack) && k < |stack|
    requires stack[k].stateno < |t.items| && r < |t.rules| && BeginsIn(t, stack[k].stateno, r, n)
    ensures Terminals(z) && Derives(t, [t.start], UpTo(stack, k) + [t.rules[r].lhs] + z)
    decreases k, n, 2
  {
    hide Valid, Closed, Productive, Derives, Chained;
    var s, lhs := stack[k].stateno, t.rules[r].lhs;
    if s == 0 && lhs == t.start {
      if k > 0 {
        NotBase(t, stack, k);
      }
      z := [];
      DerivesRefl(t, [t.start]);
      assert UpTo(stack, 0) + [lhs] + z == [t.start];
    } else {
      var it :| it in t.items[s] && Awaits(t, it, lhs) && (it.dot > 0 || (n > 0 && BeginsIn(t, s, it.rule, n - 1)));
      z := ItemContext(t, stack, k, it, lhs, n);
    }
  }

  lemma {:induction false} AwaitedActs(t: Tables, it: Item, x: nat)
    requires Awaits(t, it, x)
    ensures ActsAsOneOf(t, x, t.rules[it.rule].rhs[it.dot])
  {
    ActsAsRefl(t, x);
  }

  lemma ChainedAbove(t: Tables, stack: seq<StackEntry>)
    requires Chained(t, stack)
    ensures 1 <= |stack|
  {
  }

  /** The same for an item and the symbol that its dot is before. */
  lemma {:induction false} ItemContext(t: Tables, stack: seq<StackEntry>, k: nat, it: Item, x: nat, n: nat)
    returns (z: seq<nat>)
    requires Valid(t) && Closed(t) && Productive(t) && Chained(t, stack) && k < |stack|
    requires stack[k].stateno < |t.items| && it in t.items[stack[k].stateno] && Awaits(t, it, x)
    requires it.dot > 0 || (n > 0 && BeginsIn(t, stack[k].stateno, it.rule, n - 1))
    ensures Terminals(z) && Derives(t, [t.start], UpTo(stack, k) + [x] + z)
    decreases k, n, 1
  {
    hide Valid, Closed, Productive, Derives, BeginsIn, Chained, ActsAsOneOf;
    var below := ItemStart(t, stack, k, it, n);
    HandleOnStack(t, stack, k, it.rule, it.dot);
    AwaitedActs(t, it, x);
    z := OverItem(t, stack, k, it, [x], below);
  }

  lemma {:induction false} ItemStart(t: Tables, stack: seq<StackEntry>, k: nat, it: Item, n: nat)
    returns (z: seq<nat>)
    requires Valid(t) && Closed(t) && Productive(t) && Chained(t, stack) && k < |stack|
    requires it in ItemsOf(t, stack[k].stateno) && it.rule < |t.rules| && it.dot <= |t.rules[it.rule].rhs|
    requires it.dot > 0 || (stack[k].stateno < |t.items| && n > 0 && BeginsIn(t, stack[k].stateno, it.rule, n - 1))
    ensures it.dot <= k && Terminals(z)
    ensures Derives(t, [t.start], UpTo(stack, k - it.dot) + [t.rules[it.rule].lhs] + z)
    decreases k, n, 0
  {
    hide Valid, Closed, Productive, Derives, Chained, BeginsIn, ActsAsOneOf;
    HandleOnStack(t, stack, k, it.rule, it.dot);
    if it.dot == 0 {
      z := LeftContext(t, stack, k, it.rule, n - 1);
    } else {
      var j := k - it.dot;
      BelowIsState(t, stack, j);
      StartBegins(t, stack[j].stateno, it.rule);
      var m: nat :| BeginsIn(t, stack[j].stateno, it.rule, m);
      z := LeftContext(t, stack, j, it.rule, m);
    }
  }

  /** Any item of the top entry tells how the tokens taken go on. */
  lemma {:induction false} SomeItem(t: Tables, stack: seq<StackEntry>) returns (it: Item, n: nat)
    requires Valid(t) && Closed(t) && Chained(t, stack)
    ensures var k := |stack| - 1;
      && it in ItemsOf(t, stack[k].stateno) && it.rule < |t.rules| && it.dot <= |t.rules[it.rule].rhs|
      && (it.dot > 0 || (stack[k].stateno < |t.items| && n > 0 && BeginsIn(t, stack[k].stateno, it.rule, n - 1)))
  {
    var code := stack[|stack|-1].stateno;
    n := 0;
    if code < |t.items| {
      assert t.items[code] != {};
      it :| it in t.items[code];
      assert ItemCalledFor(t, code, it);
      if it.dot == 0 {
        var m: nat :| BeginsIn(t, code, it.rule, m);
        n := m + 1;
      }
    } else {
      assert LinkedAt(t, stack, |stack| - 1);
      it := Item(code - YY_MIN_REDUCE, |t.rules[code - YY_MIN_REDUCE].rhs|);
    }
  }

  lemma {:induction false} StackContext(t: Tables, stack: seq<StackEntry>) returns (z: seq<nat>)
    requires Valid(t) && Closed(t) && Productive(t) && Chained(t, stack)
    ensures Terminals(z) && Derives(t, [t.start], Majors(stack) + z)
  {
    hide Valid, Closed, Productive, Derives, BeginsIn, Chained, ActsAsOneOf, ItemsOf;
    var k := |stack| - 1;
    assert k >= 0 by {
      ChainedAbove(t, stack);
    }
    var it, n := SomeItem(t, stack);
    var below := ItemStart(t, stack, k, it, n);
    HandleOnStack(t, stack, k, it.rule, it.dot);
    z := OverItem(t, stack, k, it, [], below);
    assert UpTo(stack, k) + [] + z == Majors(stack) + z;
  }

  /** In every coherent configuration the tokens taken are the beginning of a sentence. */
  lemma {:induction false} TakenIsPrefix(t: Tables, c: Config) returns (z: seq<nat>)
    requires Valid(t) && Closed(t) && Productive(t) && Coherent(t, c)
    ensures Terminals(z) && Derives(t, [t.start], Codes(Live(c.trace)) + z)
  {
    hide DerivesIn, Derives;
    z := StackContext(t, c.stack);
    StackDerivesLive(t, c);
    DerivesRefl(t, z);
    DerivesConcat(t, Majors(c.stack), Codes(Live(c.trace)), z, z);
    DerivesTransitive(t, [t.start], Majors(c.stack) + z, Codes(Live(c.trace)) + z);
  }

  /** So wherever the driver can get: no token is ever taken after which there is no way to a sentence. */
  lemma {:induction false} ReachedIsPrefix(t: Tables, rounds: seq<Token>) returns (z: seq<nat>)
    requires Valid(t) && Closed(t) && Productive(t) && AllTokens(rounds)
    ensures Terminals(z) && Derives(t, [t.start], Codes(Live(Reached(t, rounds).trace)) + z)
  {
    z := TakenIsPrefix(t, Reached(t, rounds));
  }

  /** The same with a growing stack, at any depth. */
  lemma {:induction false} GrowReachedIsPrefix(t: Tables, rounds: seq<Token>, memory: Memory) returns (z: seq<nat>)
    requires Valid(t) && Closed(t) && Productive(t) && AllTokens(rounds)
    ensures Terminals(z) && Derives(t, [t.start], Codes(Live(GrowReached(t, rounds, memory).c.trace)) + z)
  {
    z := TakenIsPrefix(t, GrowReached(t, rounds, memory).c);
  }

  lemma {:induction false} CallTakes(t: Tables, c: Config, token: Token)
    requires Ready(t, c) && token.code < YYNTERMINAL
    ensures var trace := Call(t, c, token).trace;
      trace != [] && trace[|trace|-1].Shifted? ==> Live(trace) == Live(c.trace) + [token]
  {
    CallOutcome(t, c, token);
  }

  /** A call takes its token only if the tokens taken before, with it, are the beginning of a sentence. */
  lemma {:induction false} ShiftedIsPrefix(t: Tables, c: Config, token: Token) returns (z: seq<nat>)
    requires Ready(t, c) && Closed(t) && Productive(t) && token.code < YYNTERMINAL
    ensures var trace := Call(t, c, token).trace;
      trace != [] && trace[|trace|-1].Shifted? ==>
        Terminals(z) && Derives(t, [t.start], Codes(Live(c.trace) + [token]) + z)
  {
    hide Valid, Closed, Productive, Derives, Call;
    CallTakes(t, c, token);
    z := TakenIsPrefix(t, Call(t, c, token));
  }
}
