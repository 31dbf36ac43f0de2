/** The generated tables of the push-down automaton, and the lookups the driver makes in them.

    `Tables` holds the arrays of parse.c as they are stored: `action` and `lookahead` are one long
    row-displaced pair, `shiftOfst` and `reduceOfst` say where each state's row starts.  The right-hand
    sides of the rules, the start symbol and the rules marked "OPTIMIZED OUT" are in the rule names and
    comments of the generated file.  `items` is the LR(0) item set of every state: the generator computes
    it and throws it away, and here it is the certificate that the arrays belong to the grammar.
 */
module LemonTables {
  const YYNOCODE: nat := 252
  const YYWILDCARD: nat := 96
  /** Codes below this one are terminals; it is the code of the unused symbol "error". */
  const YYNTERMINAL: nat := 143
  const YYSTACKDEPTH: nat := 100
  const YYNSTATE: nat := 460
  const YYNRULE: nat := 332
  const YY_MAX_SHIFT: nat := 459
  const YY_MIN_SHIFTREDUCE: nat := 672
  const YY_MAX_SHIFTREDUCE: nat := 1003
  const YY_MIN_REDUCE: nat := 1004
  const YY_MAX_REDUCE: nat := 1335
  const YY_ERROR_ACTION: nat := 1336
  const YY_ACCEPT_ACTION: nat := 1337
  const YY_SHIFT_MIN: int := -94
  const YY_REDUCE_USE_DFLT: int := -130

  /** A production.  A right-hand side position is a set because of alternatives such as ID|INDEXED. */
  datatype Rule = Rule(lhs: nat, rhs: seq<set<nat>>)

  datatype Item = Item(rule: nat, dot: nat)

  datatype Tables = Tables(
    action: seq<nat>,
    lookahead: seq<nat>,
    shiftOfst: seq<int>,
    reduceOfst: seq<int>,
    default: seq<nat>,
    fallback: seq<nat>,
    rules: seq<Rule>,
    start: nat,
    optimizedOut: set<nat>,
    items: seq<set<Item>>)

  /** What the sizes and ranges of the arrays must be for every read of the driver to be in bounds. */
  ghost predicate WellFormed(t: Tables) {
    && |t.lookahead| == |t.action|
    && 0 < |t.shiftOfst| <= YY_MAX_SHIFT + 1
    && |t.default| == |t.shiftOfst| == |t.items|
    && |t.reduceOfst| <= |t.shiftOfst|
    && |t.rules| <= YY_MAX_REDUCE - YY_MIN_REDUCE + 1
    && |t.fallback| <= YYNTERMINAL
    && (forall s :: 0 <= s < |t.shiftOfst| ==> YY_SHIFT_MIN <= t.shiftOfst[s])
    && (forall r :: 0 <= r < |t.rules| ==> YYNTERMINAL < t.rules[r].lhs < YYNOCODE)
    && (0 < |t.fallback| ==> t.fallback[0] == 0)
    && (forall x :: 0 <= x < |t.fallback| ==>
          t.fallback[x] < |t.fallback| && t.fallback[t.fallback[x]] == 0)
  }

  function Fallback(t: Tables, x: nat): nat {
    if x < |t.fallback| then t.fallback[x] else 0
  }

  /** The packed arrays hold an entry for symbol x in the row that starts at the given offset. */
  predicate Stored(t: Tables, offset: int, x: nat)
    requires |t.lookahead| == |t.action|
  {
    0 <= offset + x < |t.action| && t.lookahead[offset + x] == x
  }

  function Entry(t: Tables, offset: int, x: nat): nat
    requires |t.lookahead| == |t.action| && Stored(t, offset, x)
  {
    t.action[offset + x]
  }

  /** The action of a state on a token: its own entry, else that of the fallback token, else that of the
      wildcard unless the token is end of input, else the default of the state. */
  function ShiftAction(t: Tables, state: nat, x: nat): nat
    requires |t.lookahead| == |t.action|
    requires state < |t.shiftOfst| == |t.default|
  {
    var offset := t.shiftOfst[state];
    var f := Fallback(t, x);
    if Stored(t, offset, x) then Entry(t, offset, x)
    else if f != 0 && Stored(t, offset, f) then Entry(t, offset, f)
    else if x != 0 && Stored(t, offset, YYWILDCARD) then Entry(t, offset, YYWILDCARD)
    else t.default[state]
  }

  /** What the driver does next: a stack top that holds a pending reduce code is that action. */
  function ActionFor(t: Tables, stateno: nat, x: nat): nat
    requires |t.lookahead| == |t.action| && |t.shiftOfst| == |t.default|
    requires stateno < |t.shiftOfst| || YY_MIN_REDUCE <= stateno
  {
    if YY_MIN_REDUCE <= stateno then stateno else ShiftAction(t, stateno, x)
  }

  /** The goto entry of a state for a non-terminal is there, so that no assert of the lookup fails. */
  predicate GotoDefined(t: Tables, state: nat, lhs: nat)
    requires |t.lookahead| == |t.action|
  {
    && state < |t.reduceOfst|
    && t.reduceOfst[state] != YY_REDUCE_USE_DFLT
    && lhs < YYNOCODE
    && Stored(t, t.reduceOfst[state], lhs)
  }

  function Goto(t: Tables, state: nat, lhs: nat): nat
    requires |t.lookahead| == |t.action|
    requires GotoDefined(t, state, lhs)
  {
    Entry(t, t.reduceOfst[state], lhs)
  }

  /** The stateno stored on the stack for a shift, shift-reduce or goto action. */
  function StackCode(act: nat): nat {
    if act > YY_MAX_SHIFT then act + YY_MIN_REDUCE - YY_MIN_SHIFTREDUCE else act
  }

  /** The ranges of actions: a shift for each state that is not fused, a fused action and a reduction for each rule,
      in the same order, and then two single actions. */
  lemma RangesFit(act: nat)
    ensures YY_MAX_SHIFT < YY_MIN_SHIFTREDUCE && YY_MAX_SHIFT == YYNSTATE - 1
    ensures YY_MIN_REDUCE == YY_MAX_SHIFTREDUCE + 1 && YY_ERROR_ACTION == YY_MAX_REDUCE + 1 < YY_ACCEPT_ACTION
    ensures YY_MIN_SHIFTREDUCE <= act <= YY_MAX_SHIFTREDUCE <==> 0 <= act - YY_MIN_SHIFTREDUCE < YYNRULE
    ensures YY_MIN_REDUCE <= act <= YY_MAX_REDUCE <==> 0 <= act - YY_MIN_REDUCE < YYNRULE
    ensures act <= YY_MAX_SHIFT <==> StackCode(act) <= YY_MAX_SHIFT
    ensures YY_MIN_SHIFTREDUCE <= act <= YY_MAX_SHIFTREDUCE
            ==> YY_MIN_REDUCE <= StackCode(act) <= YY_MAX_REDUCE
                && StackCode(act) - YY_MIN_REDUCE == act - YY_MIN_SHIFTREDUCE
  {
  }

  // ----- How the rows of a plain table are packed -----

  /** The plain table: for every state the entries for terminals, and those for non-terminals. */
  datatype Rows = Rows(shift: seq<map<nat, nat>>, reduce: seq<map<nat, nat>>)

  predicate WrittenAt(t: Tables, offset: int, x: nat, act: nat) {
    && |t.lookahead| == |t.action|
    && 0 <= offset + x < |t.action|
    && t.lookahead[offset + x] == x
    && t.action[offset + x] == act
  }

  /** Slot i was written for an entry of the s-th row, displaced by its offset. */
  predicate FromRow(t: Tables, rows: seq<map<nat, nat>>, offsets: seq<int>, i: nat, s: nat)
    requires i < |t.lookahead| && |rows| == |offsets|
  {
    s < |rows| && t.lookahead[i] in rows[s] && i == offsets[s] + t.lookahead[i]
  }

  /** Each entry of each row lies where its row is displaced to. */
  ghost predicate AllWritten(t: Tables, rows: seq<map<nat, nat>>, offsets: seq<int>) {
    && |rows| == |offsets|
    && forall s, x: nat :: 0 <= s < |rows| ==> EntryWritten(t, rows[s], offsets[s], x)
  }

  predicate EntryWritten(t: Tables, row: map<nat, nat>, offset: int, x: nat) {
    x in row ==> WrittenAt(t, offset, x, row[x])
  }

  /** Slots marked with symbols of this kind were all written for entries of these rows. */
  ghost predicate NothingElse(t: Tables, rows: seq<map<nat, nat>>, offsets: seq<int>, lo: nat, hi: nat) {
    && |rows| == |offsets|
    && (forall s, x :: 0 <= s < |rows| && x in rows[s] ==> lo <= x < hi)
    && forall i :: 0 <= i < |t.lookahead| ==> AccountedFor(t, rows, offsets, lo, hi, i)
  }

  ghost predicate AccountedFor(t: Tables, rows: seq<map<nat, nat>>, offsets: seq<int>, lo: nat, hi: nat, i: nat)
    requires i < |t.lookahead| && |rows| == |offsets|
  {
    lo <= t.lookahead[i] < hi ==> exists s :: FromRow(t, rows, offsets, i, s)
  }

  /** The arrays hold the rows, each at its offset, and apart from unused slots nothing else.  This says nothing
      yet about what a lookup for one row finds among the entries of the others. */
  ghost predicate Placed(t: Tables, rows: Rows) {
    && |t.lookahead| == |t.action|
    && AllWritten(t, rows.shift, t.shiftOfst) && NothingElse(t, rows.shift, t.shiftOfst, 0, YYNTERMINAL)
    && AllWritten(t, rows.reduce, t.reduceOfst) && NothingElse(t, rows.reduce, t.reduceOfst, YYNTERMINAL, YYNOCODE)
  }

  /** Only rows that are the same lie at the same offset. */
  ghost predicate Apart(rows: seq<map<nat, nat>>, offsets: seq<int>)
    requires |rows| == |offsets|
  {
    forall s, s' :: 0 <= s < |rows| && 0 <= s' < |rows| ==> SameIfAtOneOffset(rows, offsets, s, s')
  }

  predicate SameIfAtOneOffset(rows: seq<map<nat, nat>>, offsets: seq<int>, s: nat, s': nat)
    requires |rows| == |offsets| && s < |rows| && s' < |rows|
  {
    offsets[s] == offsets[s'] ==> rows[s] == rows[s']
  }

  /** The lookahead test finds an entry for a symbol exactly if the row has one, and finds that one. */
  ghost predicate Decodes(t: Tables, row: map<nat, nat>, offset: int, lo: nat, hi: nat)
    requires |t.lookahead| == |t.action|
  {
    forall x :: lo <= x < hi ==> DecodesAt(t, row, offset, x)
  }

  predicate DecodesAt(t: Tables, row: map<nat, nat>, offset: int, x: nat)
    requires |t.lookahead| == |t.action|
  {
    && (Stored(t, offset, x) <==> x in row)
    && (x in row && Stored(t, offset, x) ==> Entry(t, offset, x) == row[x])
  }

  ghost predicate AllDecode(t: Tables, rows: seq<map<nat, nat>>, offsets: seq<int>, lo: nat, hi: nat)
    requires |t.lookahead| == |t.action| && |rows| == |offsets|
  {
    forall s :: 0 <= s < |rows| ==> Decodes(t, rows[s], offsets[s], lo, hi)
  }

  /** The slot that a lookup reads tells its own offset, so an entry found there is of a row at that offset. */
  lemma {:induction false} RowDecodes(t: Tables, rows: seq<map<nat, nat>>, offsets: seq<int>, lo: nat, hi: nat,
                                      s: nat, x: nat)
    requires |t.lookahead| == |t.action|
    requires AllWritten(t, rows, offsets) && NothingElse(t, rows, offsets, lo, hi) && Apart(rows, offsets)
    requires s < |rows| && lo <= x < hi
    ensures DecodesAt(t, rows[s], offsets[s], x)
  {
    if Stored(t, offsets[s], x) {
      var i := offsets[s] + x;
      assert AccountedFor(t, rows, offsets, lo, hi, i);
      var s' :| FromRow(t, rows, offsets, i, s');
      assert SameIfAtOneOffset(rows, offsets, s, s');
    }
    assert EntryWritten(t, rows[s], offsets[s], x);
  }

  lemma {:induction false} DecodedApart(t: Tables, rows: seq<map<nat, nat>>, offsets: seq<int>, lo: nat, hi: nat)
    requires |t.lookahead| == |t.action| && NothingElse(t, rows, offsets, lo, hi)
    requires AllDecode(t, rows, offsets, lo, hi)
    ensures Apart(rows, offsets)
  {
    forall s, s' | 0 <= s < |rows| && 0 <= s' < |rows| && offsets[s] == offsets[s'] ensures rows[s] == rows[s'] {
      assert Decodes(t, rows[s], offsets[s], lo, hi) && Decodes(t, rows[s'], offsets[s'], lo, hi);
      forall x: nat ensures x in rows[s] <==> x in rows[s'] {
        if lo <= x < hi {
          assert DecodesAt(t, rows[s], offsets[s], x) && DecodesAt(t, rows[s'], offsets[s'], x);
        }
      }
      forall x | x in rows[s] ensures rows[s][x] == rows[s'][x] {
        assert DecodesAt(t, rows[s], offsets[s], x) && DecodesAt(t, rows[s'], offsets[s'], x);
      }
    }
  }

  lemma {:induction false} RowsDecode(t: Tables, rows: seq<map<nat, nat>>, offsets: seq<int>, lo: nat, hi: nat)
    requires |t.lookahead| == |t.action|
    requires AllWritten(t, rows, offsets) && NothingElse(t, rows, offsets, lo, hi)
    ensures AllDecode(t, rows, offsets, lo, hi) <==> Apart(rows, offsets)
  {
    if AllDecode(t, rows, offsets, lo, hi) {
      DecodedApart(t, rows, offsets, lo, hi);
    }
    forall s, x: nat | 0 <= s < |rows| && lo <= x < hi && Apart(rows, offsets)
      ensures DecodesAt(t, rows[s], offsets[s], x)
    {
      RowDecodes(t, rows, offsets, lo, hi, s, x);
    }
  }

  /** However the rows overlap: the one lookahead array is enough to tell all of them apart if and only if no
      two different rows of a kind were given the same offset. */
  lemma {:induction false} PackingDecodes(t: Tables, rows: Rows)
    requires Placed(t, rows)
    ensures AllDecode(t, rows.shift, t.shiftOfst, 0, YYNTERMINAL) <==> Apart(rows.shift, t.shiftOfst)
    ensures AllDecode(t, rows.reduce, t.reduceOfst, YYNTERMINAL, YYNOCODE) <==> Apart(rows.reduce, t.reduceOfst)
  {
    RowsDecode(t, rows.shift, t.shiftOfst, 0, YYNTERMINAL);
    RowsDecode(t, rows.reduce, t.reduceOfst, YYNTERMINAL, YYNOCODE);
  }

  /** The lookup on a plain row, which falls back by the given array: a token past its end or with 0 there has no
      fallback. */
  function SparseAction(row: map<nat, nat>, default: nat, fallback: seq<nat>, x: nat): nat {
    if x in row then row[x]
    else if x < |fallback| && fallback[x] != 0 && fallback[x] in row then row[fallback[x]]
    else if YYWILDCARD in row && x != 0 then row[YYWILDCARD]
    else default
  }

  /** So the lookups of the driver are those in the plain table. */
  lemma {:induction false} CompressedIsSparse(t: Tables, rows: Rows, s: nat, x: nat)
    requires WellFormed(t) && Placed(t, rows) && Apart(rows.shift, t.shiftOfst) && Apart(rows.reduce, t.reduceOfst)
    ensures s < |rows.shift| && x < YYNTERMINAL
            ==> ShiftAction(t, s, x) == SparseAction(rows.shift[s], t.default[s], t.fallback, x)
    ensures s < |rows.reduce| && YYNTERMINAL <= x < YYNOCODE && t.reduceOfst[s] != YY_REDUCE_USE_DFLT
            ==> (GotoDefined(t, s, x) <==> x in rows.reduce[s])
                && (GotoDefined(t, s, x) && x in rows.reduce[s] ==> Goto(t, s, x) == rows.reduce[s][x])
  {
    if s < |rows.shift| && x < YYNTERMINAL {
      RowDecodes(t, rows.shift, t.shiftOfst, 0, YYNTERMINAL, s, x);
      RowDecodes(t, rows.shift, t.shiftOfst, 0, YYNTERMINAL, s, Fallback(t, x));
      RowDecodes(t, rows.shift, t.shiftOfst, 0, YYNTERMINAL, s, YYWILDCARD);
    }
    if s < |rows.reduce| && YYNTERMINAL <= x < YYNOCODE {
      RowDecodes(t, rows.reduce, t.reduceOfst, YYNTERMINAL, YYNOCODE, s, x);
    }
  }
}
