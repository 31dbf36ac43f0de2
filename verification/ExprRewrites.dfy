/** The actions of the grammar that do not keep an expression's own shape.

    They replace IN by a constant or a comparison, IS by a test for NULL, AND by a constant, and CASE by a flat
    list.  Each is shown to evaluate to what it stands for, whatever trees it is given.
 */
module ExprRewrites {
  import opened ExprTrees

  // ----- The actions of the grammar -----

  const NOFLAGS := Flags(false, false)

  function FlagsFrom(collate: bool): Flags {
    Flags(collate, false)
  }

  function MakeUnary(op: UnaryOp, e: Expr): Expr {
    Unary(op, e, FlagsFrom(e.flags.collate))
  }

  function MakeBinary(op: BinaryOp, left: Expr, right: Expr): Expr {
    Binary(op, left, right, FlagsFrom(left.flags.collate || right.flags.collate))
  }

  /** The value of a tree that is a constant integer in the way code generation sees one. */
  function IntegerOf(e: Expr): Option<int> {
    match e
    case Number(n, _) => Some(n)
    case Unary(UPlus, operand, _) => IntegerOf(operand)
    case Unary(UMinus, operand, _) =>
      var v := IntegerOf(operand);
      if v.Some? then Some(-v.value) else None
    case _ => None
  }

  /** expr ::= expr AND expr */
  function AndAction(left: Expr, right: Expr): Expr {
    if IntegerOf(left) == Some(0) || IntegerOf(right) == Some(0) then Number(0, NOFLAGS)
    else MakeBinary(And, left, right)
  }

  /** The right-hand side of a comparison that stands for IN: without a say in how to compare. */
  function Generic(e: Expr): Expr {
    e.(flags := Flags(false, true))
  }

  /** expr ::= expr in_op LP exprlist RP */
  function InAction(left: Expr, neg: bool, list: seq<Expr>): Expr {
    if |list| == 0 then Number(if neg then 1 else 0, NOFLAGS)
    else if |list| == 1 then MakeBinary(if neg then Ne else Eq, left, Generic(list[0]))
    else
      var e := InList(left, list, FlagsFrom(left.flags.collate || SomeCollate(list)));
      if neg then MakeUnary(Not, e) else e
  }

  /** expr ::= expr IS expr, and expr ::= expr IS NOT expr */
  function IsAction(left: Expr, neg: bool, right: Expr): Expr {
    var e := MakeBinary(if neg then IsNot else Is, left, right);
    if right.NullLiteral? then Unary(if neg then NotNull else IsNull, e.left, e.flags) else e
  }

  /** case_exprlist: one WHEN and THEN after another. */
  function CaseExprList(arms: seq<(Expr, Expr)>): (list: seq<Expr>)
    ensures |list| == 2 * |arms|
  {
    if arms == [] then []
    else CaseExprList(arms[..|arms|-1]) + [arms[|arms|-1].0] + [arms[|arms|-1].1]
  }

  /** The list that CASE keeps. */
  function CaseItems(arms: seq<(Expr, Expr)>, other: Option<Expr>): seq<Expr> {
    CaseExprList(arms) + if other.Some? then [other.value] else []
  }

  /** expr ::= CASE case_operand case_exprlist case_else END */
  function CaseAction(base: Option<Expr>, arms: seq<(Expr, Expr)>, other: Option<Expr>): Expr {
    var list := CaseItems(arms, other);
    CaseList(base, list, FlagsFrom((base.Some? && base.value.flags.collate) || SomeCollate(list)))
  }

  // ----- Each action keeps meaning, whatever trees it is given -----

  lemma {:induction false} IntegerOfEvaluates(env: Env, e: Expr)
    requires IntegerOf(e).Some?
    ensures Evaluate(env, e) == Int(IntegerOf(e).value)
  {
    if e.Unary? {
      IntegerOfEvaluates(env, e.operand);
    }
  }

  /** A constant 0 on either side decides, whatever the other side is. */
  lemma {:induction false} ZeroDecides(env: Env, left: Expr, right: Expr)
    requires IntegerOf(left) == Some(0) || IntegerOf(right) == Some(0)
    ensures AndOf(env, Evaluate(env, left), Evaluate(env, right)) == Int(0)
  {
    if IntegerOf(left) == Some(0) {
      IntegerOfEvaluates(env, left);
    } else {
      IntegerOfEvaluates(env, right);
    }
  }

  lemma {:induction false} AndNode(env: Env, left: Expr, right: Expr)
    ensures Evaluate(env, MakeBinary(And, left, right)) == AndOf(env, Evaluate(env, left), Evaluate(env, right))
  {
    hide AndOf, EqOf, IsOf, RuleOf;
  }

  lemma {:induction false} AndKeepsMeaning(env: Env, left: Expr, right: Expr)
    ensures Evaluate(env, AndAction(left, right)) == AndOf(env, Evaluate(env, left), Evaluate(env, right))
  {
    if IntegerOf(left) == Some(0) || IntegerOf(right) == Some(0) {
      ZeroDecides(env, left, right);
    } else {
      AndNode(env, left, right);
    }
  }

  lemma {:induction false} IsKeepsMeaning(env: Env, left: Expr, neg: bool, right: Expr)
    ensures Evaluate(env, IsAction(left, neg, right))
            == Negated(neg, IsOf(env, RuleOf(env.columns, left, right), Evaluate(env, left), Evaluate(env, right)))
  {
    hide EqOf, RuleOf;
    if right.NullLiteral? {
      assert Evaluate(env, right) == Null;
    }
  }

  /** The affinities with which an operand below a COLLATE on the right changes the comparison. */
  predicate Overrides(left: Affinity, right: Affinity) {
    match left
    case NoAffinity => right == TextAffinity || right == Numeric
    case Blob => right == Numeric
    case TextAffinity => right == Blob || right == Numeric
    case Numeric => false
  }

  /** The mark on the one item of a list does not reach the column whose affinity is looked up: it is on an operator
      above it, or name resolution will overwrite it. */
  predicate MarkHidden(cols: Columns, left: Expr, item: Expr) {
    (Skips(item) || item.Alias?) && Overrides(AffinityOf(cols, left), AffinityOf(cols, item))
  }

  /** An item that is an alias has its column's collation in spite of the mark, and lends it to a left-hand side
      that has none. */
  predicate CollationTaken(cols: Columns, left: Expr, item: Expr) {
    && item.Alias? && cols.collation(item.id).Some?
    && !left.flags.collate && CollationOf(cols, left).None?
  }

  lemma {:induction false} GenericCase(env: Env, e: Expr, i: nat)
    requires e.CaseList? && i <= |e.list|
    ensures EvaluateCase(env, Generic(e), i) == EvaluateCase(env, e, i)
    decreases |e.list| - i
  {
    if i + 1 < |e.list| {
      GenericCase(env, e, i + 2);
    }
  }

  /** The mark says nothing about the value. */
  lemma {:induction false} GenericEvaluates(env: Env, e: Expr)
    ensures Evaluate(env, Generic(e)) == Evaluate(env, e)
  {
    if e.CaseList? {
      GenericCase(env, e, 0);
    }
  }

  /** A marked item has no say in the collation, and none in the affinity, unless the mark is hidden or lost. */
  lemma {:induction false} GenericRule(cols: Columns, left: Expr, item: Expr)
    ensures RuleOf(cols, left, Generic(item)).collation
            == if CollationTaken(cols, left, item) then cols.collation(item.id) else CollationOf(cols, left)
    ensures RuleOf(cols, left, Generic(item)).affinity
            == CompareAffinity(AffinityOf(cols, left),
                               if Skips(item) || item.Alias? then AffinityOf(cols, item) else NoAffinity)
  {
  }

  lemma {:induction false} SkippedEvaluates(env: Env, e: Expr)
    ensures Evaluate(env, SkipCollate(e)) == Evaluate(env, e)
  {
    if Skips(e) {
      SkippedEvaluates(env, e.operand);
    }
  }

  predicate IsColumn(e: Expr) {
    e.Leaf? || e.Alias?
  }

  /** What has an affinity is a column, and its value is one that the column can hold. */
  lemma {:induction false} OperandFits(env: Env, e: Expr)
    requires Stores(env)
    ensures CanStore(AffinityOf(env.columns, e), Evaluate(env, e))
  {
    SkippedEvaluates(env, e);
    if IsColumn(SkipCollate(e)) {
      assert CanStore(env.columns.affinity(SkipCollate(e).id), env.value(SkipCollate(e).id));
    }
  }

  /** Where the right-hand side does not override, storable values compare as by the left-hand side alone. */
  lemma {:induction false} SameComparison(env: Env, c: Collation, a: Affinity, b: Affinity, v: Value, w: Value)
    requires !Overrides(a, b) && CanStore(a, v) && CanStore(b, w)
    ensures EqOf(env, Rule(CompareAffinity(a, b), c), v, w) == EqOf(env, Rule(CompareAffinity(a, NoAffinity), c), v, w)
  {
  }

  lemma {:induction false} InOne(env: Env, rule: Rule, v: Value, w: Value)
    ensures InOf(env, rule, v, [w]) == EqOf(env, rule, v, w)
  {
    assert [w][0] == w;
  }

  /** The rewriting of IN gives what IN means. */
  ghost predicate InKept(env: Env, left: Expr, neg: bool, list: seq<Expr>) {
    Evaluate(env, InAction(left, neg, list))
    == Negated(neg, InOf(env, InRule(env.columns, left), Evaluate(env, left), EvaluateAll(env, list)))
  }

  lemma {:induction false} SingleItem(env: Env, left: Expr, neg: bool, item: Expr)
    ensures Evaluate(env, InAction(left, neg, [item]))
            == Negated(neg, EqOf(env, RuleOf(env.columns, left, Generic(item)),
                                 Evaluate(env, left), Evaluate(env, item)))
    ensures InOf(env, InRule(env.columns, left), Evaluate(env, left), EvaluateAll(env, [item]))
            == EqOf(env, InRule(env.columns, left), Evaluate(env, left), Evaluate(env, item))
  {
    GenericEvaluates(env, item);
    InOne(env, InRule(env.columns, left), Evaluate(env, left), Evaluate(env, item));
    assert EvaluateAll(env, [item]) == [Evaluate(env, item)];
  }

  /** For a list of any length, with NULLs anywhere. */
  lemma {:induction false} InKeepsMeaning(env: Env, left: Expr, neg: bool, list: seq<Expr>)
    requires Stores(env)
    requires |list| == 1 ==> !MarkHidden(env.columns, left, list[0]) && !CollationTaken(env.columns, left, list[0])
    ensures InKept(env, left, neg, list)
  {
    if |list| == 1 {
      var cols, item := env.columns, list[0];
      assert list == [item];
      SingleItem(env, left, neg, item);
      GenericRule(cols, left, item);
      OperandFits(env, left);
      OperandFits(env, item);
      if Skips(item) || item.Alias? {
        SameComparison(env, CollationOf(cols, left), AffinityOf(cols, left), AffinityOf(cols, item),
                       Evaluate(env, left), Evaluate(env, item));
      }
    }
  }

  /** Two values for which a comparison goes one way by the affinity of the left-hand side alone and the other
      way by both. */
  function Telling(a: Affinity, b: Affinity): (Value, Value)
    requires Overrides(a, b)
  {
    if a == NoAffinity && b == TextAffinity then (Int(1), Text("1"))
    else if a == TextAffinity && b == Numeric then (Text("01"), Int(1))
    else (Text("1"), Int(1))
  }

  lemma {:induction false} TextsOfOne()
    ensures IntText(1) == "1" && NumberOf("1") == Some(1) && NumberOf("01") == Some(1)
  {
    assert TrimmedRight("1") == "1" && TrimmedLeft("1") == "1";
    assert TrimmedRight("01") == "01" && TrimmedLeft("01") == "01";
    assert "01"[..1] == "0";
    assert NatOf("0") == Some(0) && NatOf("1") == Some(1);
  }

  /** They can be stored, and they tell the two comparisons apart. */
  lemma {:induction false} TellingDiffers(env: Env, c: Collation, a: Affinity, b: Affinity)
    requires Overrides(a, b) && forall s: string :: SameText(env, c, s, s)
    requires !SameText(env, c, "01", "1")
    ensures var (v, w) := Telling(a, b);
      && CanStore(a, v) && CanStore(b, w)
      && EqOf(env, Rule(CompareAffinity(a, b), c), v, w) != EqOf(env, Rule(CompareAffinity(a, NoAffinity), c), v, w)
  {
    TextsOfOne();
    assert SameText(env, c, "1", "1");
  }

  /** An environment in which the two values are those of two columns. */
  function EnvWith(cols: Columns, i: nat, v: Value, j: nat, w: Value, collates: (nat, string, string) -> bool): Env {
    Env(id => if id == i then v else if id == j then w else Null, cols, collates, _ => false, _ => Null)
  }

  /** For columns and aliases on both sides, below any number of COLLATE operators: the rewriting of IN (x) keeps the
      meaning for all values that the columns can hold, and whatever texts the collations take for equal, if and
      only if the mark is not hidden and takes no collation along. */
  lemma {:induction false} SingleItemKeptExactly(cols: Columns, left: Expr, neg: bool, item: Expr)
    requires IsColumn(SkipCollate(left)) && IsColumn(SkipCollate(item))
    requires !SkipCollate(left).flags.generic && !SkipCollate(item).flags.generic
    ensures (forall env | Stores(env) && env.columns == cols :: InKept(env, left, neg, [item]))
            <==> !MarkHidden(cols, left, item) && !CollationTaken(cols, left, item)
  {
    if MarkHidden(cols, left, item) {
      var env := HiddenMarkChanges(cols, left, neg, item);
    } else if CollationTaken(cols, left, item) {
      var env := TakenCollationChanges(cols, left, neg, item);
    } else {
      forall env | Stores(env) && env.columns == cols ensures InKept(env, left, neg, [item]) {
        InKeepsMeaning(env, left, neg, [item]);
      }
    }
  }

  /** The values that go wrong. */
  lemma {:induction false} HiddenMarkChanges(cols: Columns, left: Expr, neg: bool, item: Expr) returns (env: Env)
    requires IsColumn(SkipCollate(left)) && IsColumn(SkipCollate(item))
    requires !SkipCollate(left).flags.generic && !SkipCollate(item).flags.generic
    requires MarkHidden(cols, left, item)
    ensures Stores(env) && env.columns == cols && !InKept(env, left, neg, [item])
  {
    var i, j, a, b := SkipCollate(left).id, SkipCollate(item).id, AffinityOf(cols, left), AffinityOf(cols, item);
    var (v, w) := Telling(a, b);
    env := EnvWith(cols, i, v, j, w, (_, s, t) => s == t);
    TellingDiffers(env, RuleOf(cols, left, Generic(item)).collation, a, b);
    SameByEquality(env, RuleOf(cols, left, Generic(item)).collation, CollationOf(cols, left));
    SkippedEvaluates(env, left);
    SkippedEvaluates(env, item);
    SingleItem(env, left, neg, item);
    GenericRule(cols, left, item);
  }

  /** When every collation takes equal texts for equal and no others, it does not matter which one compares. */
  lemma SameByEquality(env: Env, c: Collation, d: Collation)
    requires forall k, s, t :: env.collates(k, s, t) == (s == t)
    ensures forall a, v, w :: EqOf(env, Rule(a, c), v, w) == EqOf(env, Rule(a, d), v, w)
  {
  }

  /** A collation that takes different texts for equal, or, for one column on both sides, not even equal ones. */
  lemma {:induction false} TakenCollationChanges(cols: Columns, left: Expr, neg: bool, item: Expr) returns (env: Env)
    requires IsColumn(SkipCollate(left)) && IsColumn(SkipCollate(item))
    requires CollationTaken(cols, left, item) && !MarkHidden(cols, left, item)
    ensures Stores(env) && env.columns == cols && !InKept(env, left, neg, [item])
  {
    var i, j := SkipCollate(left).id, SkipCollate(item).id;
    env := EnvWith(cols, i, Text("a"), j, Text("b"), (_, _, _) => i != j);
    WordsAreNoNumbers();
    SkippedEvaluates(env, left);
    SkippedEvaluates(env, item);
    SingleItem(env, left, neg, item);
    GenericRule(cols, left, item);
  }

  lemma {:induction false} WordsAreNoNumbers()
    ensures NumberOf("a") == None && NumberOf("b") == None
  {
    assert TrimmedRight("a") == "a" && TrimmedLeft("a") == "a";
    assert TrimmedRight("b") == "b" && TrimmedLeft("b") == "b";
  }

  // ----- CASE -----

  lemma {:induction false} CaseExprListAt(arms: seq<(Expr, Expr)>, k: nat)
    requires k < |arms|
    ensures CaseExprList(arms)[2*k] == arms[k].0 && CaseExprList(arms)[2*k+1] == arms[k].1
  {
    if k < |arms| - 1 {
      CaseExprListAt(arms[..|arms|-1], k);
    }
  }

  /** The flat list gives back what it was made of: an odd length means that there is an ELSE. */
  lemma {:induction false} CaseItemsDecode(arms: seq<(Expr, Expr)>, other: Option<Expr>)
    ensures var list := CaseItems(arms, other);
      && |list| / 2 == |arms|
      && (forall k :: 0 <= k < |arms| ==> (list[2*k], list[2*k+1]) == arms[k])
      && other == if |list| % 2 == 1 then Some(list[|list|-1]) else None
  {
    forall k | 0 <= k < |arms|
      ensures (CaseItems(arms, other)[2*k], CaseItems(arms, other)[2*k+1]) == arms[k]
    {
      CaseExprListAt(arms, k);
    }
  }
}
