/** When it matters that an action has forgotten a COLLATE operator.

    IN (), an AND with a constant 0 and IN (x) forget the operators in parts of their operands.  What is left evaluates
    to an integer or NULL, which needs no collation; but a comparison with a TEXT column compares the integer as text,
    and by the collation that the forgotten operator should have decided.
 */
module LostCollations {
  import opened ExprTrees
  import opened ExprRewrites
  import opened ExprTexts
  import opened TextMeanings
  import opened ValueLaws
  import opened CaseBases

  /** =, <>, IS or IS NOT, and on which side the column is. */
  datatype Form = Form(byIs: bool, neg: bool, swapped: bool)

  function Comparison(f: Form, l: Surface, r: Surface): Surface {
    var x, y := if f.swapped then r else l, if f.swapped then l else r;
    if f.byIs then IsText(x, f.neg, y) else Compared(x, f.neg, y)
  }

  /** The collation that the text says, and the one that the comparison is made by. */
  function SaidBy(cols: Columns, f: Form, l: Surface, r: Surface): Collation {
    if f.swapped then ComparedBy(cols, r, l) else ComparedBy(cols, l, r)
  }

  function MadeBy(cols: Columns, f: Form, l: Surface, r: Surface): Collation {
    if f.swapped then ComparedBy(cols, Remains(r), Remains(l)) else ComparedBy(cols, Remains(l), Remains(r))
  }

  function AffinityFor(f: Form, a: Affinity, b: Affinity): Affinity {
    if f.swapped then CompareAffinity(b, a) else CompareAffinity(a, b)
  }

  function EqIn(env: Env, f: Form, rule: Rule, v: Value, w: Value): Value {
    if f.swapped then EqOf(env, rule, w, v) else EqOf(env, rule, v, w)
  }

  lemma EqualsApart(env: Env, c: Rule, d: Rule, v: Value, w: Value, neg: bool)
    ensures Negated(neg, EqOf(env, c, v, w)) == Negated(neg, EqOf(env, d, v, w))
            <==> EqOf(env, c, v, w) == EqOf(env, d, v, w)
    ensures Negated(neg, IsOf(env, c, v, w)) == Negated(neg, IsOf(env, d, v, w))
            <==> EqOf(env, c, v, w) == EqOf(env, d, v, w)
  {
  }

  lemma {:induction false} ComparedPairRight(env: Env, neg: bool, x: Surface, y: Surface)
    requires Right(env, x) && Right(env, y)
    ensures var v, w := Meaning(env, x), Meaning(env, y);
      Right(env, Compared(x, neg, y)) <==>
      EqOf(env, UsedRule(env.columns, x, y), v, w) == EqOf(env, TextRule(env.columns, x, y), v, w)
  {
    hide EqOf, UsedRule, TextRule, RuleOf;
    BuildRule(env.columns, x, y);
    EqualsApart(env, UsedRule(env.columns, x, y), TextRule(env.columns, x, y), Meaning(env, x), Meaning(env, y), neg);
  }

  lemma {:induction false} IsPairRight(env: Env, neg: bool, x: Surface, y: Surface)
    requires Right(env, x) && Right(env, y)
    ensures var v, w := Meaning(env, x), Meaning(env, y);
      Right(env, IsText(x, neg, y)) <==>
      EqOf(env, UsedRule(env.columns, x, y), v, w) == EqOf(env, TextRule(env.columns, x, y), v, w)
  {
    hide EqOf, UsedRule, TextRule, RuleOf, IsAction;
    BuildRule(env.columns, x, y);
    IsKeepsMeaning(env, Build(x), neg, Build(y));
    EqualsApart(env, UsedRule(env.columns, x, y), TextRule(env.columns, x, y), Meaning(env, x), Meaning(env, y), neg);
  }

  lemma {:induction false} PairRight(env: Env, f: Form, x: Surface, y: Surface)
    requires Right(env, x) && Right(env, y)
    ensures var s := if f.byIs then IsText(x, f.neg, y) else Compared(x, f.neg, y);
      var v, w := Meaning(env, x), Meaning(env, y);
      Right(env, s) <==>
      EqOf(env, UsedRule(env.columns, x, y), v, w) == EqOf(env, TextRule(env.columns, x, y), v, w)
  {
    hide Right, EqOf, Meaning;
    if f.byIs {
      IsPairRight(env, f.neg, x, y);
    } else {
      ComparedPairRight(env, f.neg, x, y);
    }
  }

  /** With operands that are right, a comparison is right if and only if the two collations give the same. */
  lemma {:induction false} ComparisonRight(env: Env, f: Form, l: Surface, r: Surface)
    requires Right(env, l) && Right(env, r)
    ensures var cols, v, w := env.columns, Meaning(env, l), Meaning(env, r);
      var a := AffinityFor(f, TextAffinityOf(cols, l), TextAffinityOf(cols, r));
      Right(env, Comparison(f, l, r)) <==>
      EqIn(env, f, Rule(a, MadeBy(cols, f, l, r)), v, w) == EqIn(env, f, Rule(a, SaidBy(cols, f, l, r)), v, w)
  {
    hide Right, Meaning, EqOf, ComparedBy, Remains, TextAffinityOf;
    if f.swapped {
      PairRight(env, f, r, l);
    } else {
      PairRight(env, f, l, r);
    }
  }

  // ----- Integers compared to a column -----

  predicate SameIn(collates: (nat, string, string) -> bool, f: Form, c: Collation, s: string, t: string) {
    if f.swapped then SameBy(collates, c, t, s) else SameBy(collates, c, s, t)
  }

  /** The two collations agree on which texts are equal to s. */
  ghost predicate AgreeOn(collates: (nat, string, string) -> bool, f: Form, c: Collation, d: Collation, s: string) {
    forall t: string :: SameIn(collates, f, c, s, t) == SameIn(collates, f, d, s, t)
  }

  /** The collation has a say only in whether an integer, as text, is equal to a text of a TEXT column. */
  lemma {:induction false} IntegerAsText(env: Env, f: Form, b: Affinity, v: Value, w: Value, c: Collation, d: Collation)
    requires (v.Int? || v == Null) && CanStore(b, w)
    ensures var a := AffinityFor(f, NoAffinity, b);
      EqIn(env, f, Rule(a, c), v, w) == EqIn(env, f, Rule(a, d), v, w) <==>
      (b == TextAffinity && v.Int? && w.Text? ==>
        SameIn(env.collates, f, c, IntText(v.n), w.s) == SameIn(env.collates, f, d, IntText(v.n), w.s))
  {
    hide IntText, NumberOf;
  }

  /** The value of the text is always an integer or NULL. */
  predicate Digits(s: Surface) {
    match s
    case Atom(_) => false
    case AliasName(_) => false
    case Group(inner) => Digits(inner)
    case CollateText(inner, _) => Digits(inner)
    case LikelyText(inner) => Digits(inner)
    case Applied(op, inner) => op == Not || op == IsNull || op == NotNull || Digits(inner)
    case CaseText(_, _, _) => false
    case _ => true
  }

  lemma {:induction false} DigitsMean(env: Env, s: Surface)
    requires Digits(s)
    ensures Meaning(env, s).Int? || Meaning(env, s) == Null
  {
    if s.Group? || s.CollateText? || s.LikelyText? || (s.Applied? && (s.uop == UPlus || s.uop == UMinus)) {
      DigitsMean(env, s.inner);
    }
  }

  lemma {:induction false} DigitsHaveNoAffinity(cols: Columns, s: Surface)
    requires Digits(s)
    ensures TextAffinityOf(cols, s) == NoAffinity
  {
    if s.Group? || s.CollateText? || s.LikelyText? {
      DigitsHaveNoAffinity(cols, s.inner);
    }
  }

  lemma {:induction false} IntegersAreDigits(s: Surface)
    requires TextInteger(s).Some?
    ensures Digits(s)
  {
    if s.Group? || s.Applied? {
      IntegersAreDigits(s.inner);
    }
  }

  /** Storable values in columns that are declared so, with collations that take those texts for equal. */
  ghost predicate Fixed(env: Env, cols: Columns, collates: (nat, string, string) -> bool) {
    Stores(env) && env.columns == cols && env.collates == collates
  }

  lemma {:induction false} DigitsCompared(env: Env, f: Form, l: Surface, r: Surface)
    requires Stores(env) && Right(env, l) && Digits(l) && ColumnOf(r).Some?
    ensures var cols, b := env.columns, ColumnOf(r).value;
      Right(env, Comparison(f, l, r)) <==>
      (cols.affinity(b) == TextAffinity && Meaning(env, l).Int? && env.value(b).Text? ==>
        SameIn(env.collates, f, MadeBy(cols, f, l, r), IntText(Meaning(env, l).n), env.value(b).s)
        == SameIn(env.collates, f, SaidBy(cols, f, l, r), IntText(Meaning(env, l).n), env.value(b).s))
  {
    hide Meaning, EqIn, SameIn, MadeBy, SaidBy, TextAffinityOf, Digits, ColumnOf, ColumnUnder, IntText;
    var cols, b := env.columns, ColumnOf(r).value;
    ColumnIsUnder(r);
    ColumnRight(env, r);
    ColumnAffinity(cols, r);
    DigitsMean(env, l);
    DigitsHaveNoAffinity(cols, l);
    assert CanStore(cols.affinity(b), env.value(b));
    ComparisonRight(env, f, l, r);
    IntegerAsText(env, f, cols.affinity(b), Meaning(env, l), env.value(b),
                  MadeBy(cols, f, l, r), SaidBy(cols, f, l, r));
  }

  // ----- A constant -----

  /** The constant is one text, the column any: the comparison is right for all values if and only if the column is no
      TEXT column, or the collation it is made by and the one that the text says agree on the digits. */
  lemma {:induction false} ConstantKeptExactly(cols: Columns, collates: (nat, string, string) -> bool, f: Form,
                                               l: Surface, r: Surface)
    requires TextInteger(l).Some? && ColumnOf(r).Some?
    ensures (forall env | Fixed(env, cols, collates) :: Right(env, Comparison(f, l, r)))
            <==> (cols.affinity(ColumnOf(r).value) == TextAffinity ==>
                    AgreeOn(collates, f, MadeBy(cols, f, l, r), SaidBy(cols, f, l, r), IntText(TextInteger(l).value)))
  {
    hide Meaning, MadeBy, SaidBy, IntText, SameIn, Right, Comparison;
    var b, c, d, s := ColumnOf(r).value, MadeBy(cols, f, l, r), SaidBy(cols, f, l, r), IntText(TextInteger(l).value);
    IntegersAreDigits(l);
    if cols.affinity(b) == TextAffinity {
      if t: string :| SameIn(collates, f, c, s, t) != SameIn(collates, f, d, s, t) {
        var env := EnvWith(cols, b, Text(t), b, Null, collates);
        IntegerRight(env, l);
        DigitsCompared(env, f, l, r);
      }
    }
    forall env | Fixed(env, cols, collates) && (cols.affinity(b) == TextAffinity ==> AgreeOn(collates, f, c, d, s))
      ensures Right(env, Comparison(f, l, r))
    {
      IntegerRight(env, l);
      DigitsCompared(env, f, l, r);
    }
  }

  lemma {:induction false} IntegerRemains(s: Surface)
    requires TextInteger(s).Some?
    ensures TextInteger(Remains(s)).Some? && !Explicit(Remains(s))
    ensures forall cols :: TextCollation(cols, Remains(s)) == None
  {
    if s.Group? || s.Applied? {
      IntegerRemains(s.inner);
    }
  }

  lemma {:induction false} ColumnRemains(s: Surface)
    requires ColumnOf(s).Some?
    ensures Remains(s) == s
  {
    if s.Group? || s.LikelyText? {
      ColumnRemains(s.inner);
    }
  }

  /** For a COLLATE in the constant and none at the column, these are the collation of that operator, forgotten, and
      the column's own. */
  lemma {:induction false} ConstantForgets(cols: Columns, f: Form, l: Surface, r: Surface)
    requires TextInteger(l).Some? && ColumnOf(r).Some? && Explicit(l) && !Explicit(r)
    ensures SaidBy(cols, f, l, r) == TextCollation(cols, l)
    ensures MadeBy(cols, f, l, r) == TextCollation(cols, r)
  {
    hide TextCollation, Explicit;
    IntegerRemains(l);
    ColumnRemains(r);
  }

  // ----- Any text whose value is an integer -----

  predicate Mentions(s: Surface, b: nat) {
    match s
    case Atom(id) => id == b
    case AliasName(id) => id == b
    case IntegerWord(_) => false
    case NullWord => false
    case Group(inner) => Mentions(inner, b)
    case CollateText(inner, _) => Mentions(inner, b)
    case LikelyText(inner) => Mentions(inner, b)
    case Applied(_, inner) => Mentions(inner, b)
    case Compared(left, _, right) => Mentions(left, b) || Mentions(right, b)
    case AndText(left, right) => Mentions(left, b) || Mentions(right, b)
    case IsText(left, _, right) => Mentions(left, b) || Mentions(right, b)
    case InText(left, _, items) => Mentions(left, b) || exists i :: 0 <= i < |items| && Mentions(items[i], b)
    case CaseText(base, arms, other) =>
      || (base.Some? && Mentions(base.value, b))
      || (exists k :: 0 <= k < |arms| && (Mentions(arms[k].0, b) || Mentions(arms[k].1, b)))
      || (other.Some? && Mentions(other.value, b))
  }

  /** The same but for the value of one column. */
  ghost predicate SameBut(env: Env, other: Env, b: nat) {
    && env == other.(value := env.value)
    && forall id: nat :: id != b ==> env.value(id) == other.value(id)
  }

  ghost predicate SameMeaning(env: Env, other: Env, s: Surface) {
    Meaning(env, s) == Meaning(other, s)
  }

  lemma SameHolds(env: Env, other: Env, b: nat, v: Value)
    requires SameBut(env, other, b)
    ensures Holds(env, v) == Holds(other, v) && NotOf(env, v) == NotOf(other, v) && MinusOf(env, v) == MinusOf(other, v)
    ensures forall w :: AndOf(env, v, w) == AndOf(other, v, w)
  {
  }

  lemma SameComparisons(env: Env, other: Env, b: nat, rule: Rule, v: Value, w: Value)
    requires SameBut(env, other, b)
    ensures EqOf(env, rule, v, w) == EqOf(other, rule, v, w) && IsOf(env, rule, v, w) == IsOf(other, rule, v, w)
  {
  }

  lemma {:induction false} SameList(env: Env, other: Env, b: nat, rule: Rule, v: Value, list: seq<Value>)
    requires SameBut(env, other, b)
    ensures InOf(env, rule, v, list) == InOf(other, rule, v, list)
  {
    forall i | 0 <= i < |list| ensures EqOf(env, rule, v, list[i]) == EqOf(other, rule, v, list[i]) {
      SameComparisons(env, other, b, rule, v, list[i]);
    }
  }

  lemma {:induction false} SimpleElsewhere(env: Env, other: Env, b: nat, s: Surface)
    requires SameBut(env, other, b) && (s.Atom? || s.AliasName? || s.IntegerWord? || s.NullWord? ==> !Mentions(s, b))
    requires s.Group? || s.CollateText? || s.LikelyText? || s.Applied? ==> SameMeaning(env, other, s.inner)
    requires s.Compared? || s.AndText? || s.IsText? ==>
      SameMeaning(env, other, s.left) && SameMeaning(env, other, s.right)
    requires !s.InText? && !s.CaseText?
    ensures SameMeaning(env, other, s)
  {
    hide EqOf, IsOf, NotOf, MinusOf, AndOf, Holds;
    match s {
      case Applied(_, inner) => SameHolds(env, other, b, Meaning(env, inner));
      case Compared(left, _, right) =>
        SameComparisons(env, other, b, TextRule(env.columns, left, right), Meaning(env, left), Meaning(env, right));
      case IsText(left, _, right) =>
        SameComparisons(env, other, b, TextRule(env.columns, left, right), Meaning(env, left), Meaning(env, right));
      case AndText(left, right) => SameHolds(env, other, b, Meaning(env, left));
      case _ =>
    }
  }

  lemma {:induction false} InElsewhere(env: Env, other: Env, b: nat, s: Surface)
    requires SameBut(env, other, b) && s.InText? && SameMeaning(env, other, s.left)
    requires forall i :: 0 <= i < |s.items| ==> SameMeaning(env, other, s.items[i])
    ensures SameMeaning(env, other, s)
  {
    hide InOf;
    var list := seq(|s.items|, i requires 0 <= i < |s.items| => Meaning(env, s.items[i]));
    assert list == seq(|s.items|, i requires 0 <= i < |s.items| => Meaning(other, s.items[i])) by {
      assert forall i :: 0 <= i < |s.items| ==> SameMeaning(env, other, s.items[i]);
    }
    SameList(env, other, b, TextInRule(env.columns, s.left), Meaning(env, s.left), list);
  }

  ghost predicate ArmSame(env: Env, other: Env, arm: (Surface, Surface)) {
    SameMeaning(env, other, arm.0) && SameMeaning(env, other, arm.1)
  }

  lemma {:induction false} CaseElsewhere(env: Env, other: Env, b: nat, s: Surface, k: nat)
    requires SameBut(env, other, b) && s.CaseText? && k <= |s.arms|
    requires s.base.Some? ==> SameMeaning(env, other, s.base.value)
    requires s.other.Some? ==> SameMeaning(env, other, s.other.value)
    requires forall i :: 0 <= i < |s.arms| ==> ArmSame(env, other, s.arms[i])
    ensures CaseMeaning(env, s, k) == CaseMeaning(other, s, k)
    decreases |s.arms| - k
  {
    hide EqOf, Holds;
    if k < |s.arms| {
      CaseElsewhere(env, other, b, s, k + 1);
      assert ArmSame(env, other, s.arms[k]);
      if s.base.Some? {
        SameComparisons(env, other, b, TextRule(env.columns, s.base.value, s.arms[k].0), Meaning(env, s.base.value),
                        Meaning(env, s.arms[k].0));
      }
      SameHolds(env, other, b, ArmTest(env, s, k));
    }
  }

  /** The meaning of a text depends on the values of the columns that it mentions. */
  lemma {:induction false} MeaningElsewhere(env: Env, other: Env, b: nat, s: Surface)
    requires SameBut(env, other, b) && !Mentions(s, b)
    ensures SameMeaning(env, other, s)
  {
    hide SameMeaning, SameBut;
    match s {
      case Group(inner) => MeaningElsewhere(env, other, b, inner);
      case CollateText(inner, _) => MeaningElsewhere(env, other, b, inner);
      case LikelyText(inner) => MeaningElsewhere(env, other, b, inner);
      case Applied(_, inner) => MeaningElsewhere(env, other, b, inner);
      case Compared(left, _, right) =>
        MeaningElsewhere(env, other, b, left);
        MeaningElsewhere(env, other, b, right);
      case AndText(left, right) =>
        MeaningElsewhere(env, other, b, left);
        MeaningElsewhere(env, other, b, right);
      case IsText(left, _, right) =>
        MeaningElsewhere(env, other, b, left);
        MeaningElsewhere(env, other, b, right);
      case InText(left, _, items) =>
        MeaningElsewhere(env, other, b, left);
        forall i | 0 <= i < |items| ensures SameMeaning(env, other, items[i]) {
          MeaningElsewhere(env, other, b, items[i]);
        }
        InElsewhere(env, other, b, s);
      case CaseText(base, arms, rest) =>
        if base.Some? {
          MeaningElsewhere(env, other, b, base.value);
        }
        if rest.Some? {
          MeaningElsewhere(env, other, b, rest.value);
        }
        forall k | 0 <= k < |arms| ensures ArmSame(env, other, arms[k]) {
          MeaningElsewhere(env, other, b, arms[k].0);
          MeaningElsewhere(env, other, b, arms[k].1);
        }
        CaseSame(env, other, b, s);
      case _ =>
    }
    if !s.InText? && !s.CaseText? {
      SimpleElsewhere(env, other, b, s);
    }
  }

  lemma {:induction false} CaseSame(env: Env, other: Env, b: nat, s: Surface)
    requires SameBut(env, other, b) && s.CaseText?
    requires s.base.Some? ==> SameMeaning(env, other, s.base.value)
    requires s.other.Some? ==> SameMeaning(env, other, s.other.value)
    requires forall i :: 0 <= i < |s.arms| ==> ArmSame(env, other, s.arms[i])
    ensures SameMeaning(env, other, s)
  {
    CaseElsewhere(env, other, b, s, 0);
  }

  /** An integer that the text can have as its value. */
  ghost predicate CanYield(cols: Columns, collates: (nat, string, string) -> bool, l: Surface, n: int) {
    exists env :: Fixed(env, cols, collates) && Meaning(env, l) == Int(n)
  }

  /** For any text whose value is an integer or NULL, compared with a column it does not mention: the comparison is
      right for all values if and only if the column is no TEXT column, or the two collations agree on all integers that
      the text can yield. */
  lemma {:induction false} DigitsKeptExactly(cols: Columns, collates: (nat, string, string) -> bool, f: Form,
                                             l: Surface, r: Surface)
    requires Digits(l) && ColumnOf(r).Some? && !Mentions(l, ColumnOf(r).value)
    requires forall env | Fixed(env, cols, collates) :: Right(env, l)
    ensures (forall env | Fixed(env, cols, collates) :: Right(env, Comparison(f, l, r)))
            <==> (cols.affinity(ColumnOf(r).value) == TextAffinity ==>
                    forall n: int | CanYield(cols, collates, l, n) ::
                      AgreeOn(collates, f, MadeBy(cols, f, l, r), SaidBy(cols, f, l, r), IntText(n)))
  {
    hide Meaning, MadeBy, SaidBy, IntText, SameIn, Right, Comparison, Digits, Mentions, ColumnOf;
    var b, c, d := ColumnOf(r).value, MadeBy(cols, f, l, r), SaidBy(cols, f, l, r);
    if cols.affinity(b) == TextAffinity {
      if n: int :| CanYield(cols, collates, l, n) && !AgreeOn(collates, f, c, d, IntText(n)) {
        var env := DisagreeingText(cols, collates, f, l, r, n);
      }
    }
    forall env | Fixed(env, cols, collates)
                 && (cols.affinity(b) == TextAffinity ==>
                       forall n: int | CanYield(cols, collates, l, n) :: AgreeOn(collates, f, c, d, IntText(n)))
      ensures Right(env, Comparison(f, l, r))
    {
      DigitsCompared(env, f, l, r);
      if cols.affinity(b) == TextAffinity && Meaning(env, l).Int? {
        assert CanYield(cols, collates, l, Meaning(env, l).n);
      }
    }
  }

  lemma {:induction false} DisagreeingText(cols: Columns, collates: (nat, string, string) -> bool, f: Form,
                                           l: Surface, r: Surface, n: int) returns (env: Env)
    requires Digits(l) && ColumnOf(r).Some? && !Mentions(l, ColumnOf(r).value)
    requires forall env | Fixed(env, cols, collates) :: Right(env, l)
    requires cols.affinity(ColumnOf(r).value) == TextAffinity && CanYield(cols, collates, l, n)
    requires !AgreeOn(collates, f, MadeBy(cols, f, l, r), SaidBy(cols, f, l, r), IntText(n))
    ensures Fixed(env, cols, collates) && !Right(env, Comparison(f, l, r))
  {
    hide Meaning, MadeBy, SaidBy, IntText, SameIn, Right, Comparison, Digits, Mentions, ColumnOf;
    var b, c, d := ColumnOf(r).value, MadeBy(cols, f, l, r), SaidBy(cols, f, l, r);
    var t: string :| SameIn(collates, f, c, IntText(n), t) != SameIn(collates, f, d, IntText(n), t);
    var env0 :| Fixed(env0, cols, collates) && Meaning(env0, l) == Int(n);
    env := env0.(value := (id: nat) => if id == b then Text(t) else env0.value(id));
    MeaningElsewhere(env, env0, b, l);
    DigitsCompared(env, f, l, r);
  }

  // ----- IN with one item -----

  lemma {:induction false} ColumnFaithful(cols: Columns, s: Surface)
    requires ColumnOf(s).Some?
    ensures Faithful(cols, s)
  {
    if !s.Atom? && !s.AliasName? {
      ColumnFaithful(cols, s.inner);
    }
  }

  lemma {:induction false} ColumnMentions(s: Surface, b: nat)
    requires ColumnOf(s).Some?
    ensures Mentions(s, b) <==> ColumnOf(s).value == b
  {
    if !s.Atom? && !s.AliasName? {
      ColumnMentions(s.inner, b);
    }
  }

  lemma DigitTexts()
    ensures IntText(0) == "0" && IntText(1) == "1"
  {
  }

  lemma {:induction false} ItemMeans(env: Env, x: Surface, neg: bool, y: Surface)
    ensures Meaning(env, InText(x, neg, [y]))
            == Negated(neg, EqOf(env, TextInRule(env.columns, x), Meaning(env, x), Meaning(env, y)))
  {
    hide EqOf, InOf, TextInRule;
    InOne(env, TextInRule(env.columns, x), Meaning(env, x), Meaning(env, y));
    assert seq(1, i requires 0 <= i < 1 => Meaning(env, [y][i])) == [Meaning(env, y)];
  }

  lemma {:induction false} ItemYields(cols: Columns, collates: (nat, string, string) -> bool, x: Surface, neg: bool,
                                      y: Surface, n: int)
    requires ColumnOf(x).Some? && ColumnOf(y).Some? && ColumnOf(x) != ColumnOf(y)
    ensures CanYield(cols, collates, InText(x, neg, [y]), n) <==> n == 0 || n == 1
  {
    hide Meaning, TextInRule;
    ColumnIsUnder(x);
    ColumnIsUnder(y);
    if n == 0 || n == 1 {
      var w := if (n == 1) == neg then "b" else "a";
      var env := EnvWith(cols, ColumnOf(x).value, Bytes("a"), ColumnOf(y).value, Bytes(w), collates);
      ColumnRight(env, x);
      ColumnRight(env, y);
      ItemMeans(env, x, neg, y);
      assert Fixed(env, cols, collates) && Meaning(env, InText(x, neg, [y])) == Int(n);
    }
    if env :| Fixed(env, cols, collates) && Meaning(env, InText(x, neg, [y])) == Int(n) {
      ItemMeans(env, x, neg, y);
    }
  }

  /** A column compared with what a one-item IN gives: right for all values if and only if the column is no TEXT column,
      or the two collations agree on 0 and 1. */
  lemma {:induction false} ItemKeptExactly(cols: Columns, collates: (nat, string, string) -> bool, f: Form,
                                           x: Surface, neg: bool, y: Surface, r: Surface)
    requires ColumnOf(x).Some? && ColumnOf(y).Some? && ColumnOf(r).Some?
    requires ColumnOf(x) != ColumnOf(y) && ColumnOf(x) != ColumnOf(r) && ColumnOf(y) != ColumnOf(r)
    requires !HiddenItem(cols, x, y) && !TakenItem(cols, x, y)
    ensures var l := InText(x, neg, [y]);
      (forall env | Fixed(env, cols, collates) :: Right(env, Comparison(f, l, r)))
      <==> (cols.affinity(ColumnOf(r).value) == TextAffinity ==>
              && AgreeOn(collates, f, MadeBy(cols, f, l, r), SaidBy(cols, f, l, r), "0")
              && AgreeOn(collates, f, MadeBy(cols, f, l, r), SaidBy(cols, f, l, r), "1"))
  {
    hide Meaning, MadeBy, SaidBy, AgreeOn, Right, Comparison, ColumnOf, HiddenItem, TakenItem, IntText, CanYield;
    var l := InText(x, neg, [y]);
    ItemFaithful(cols, x, neg, y);
    ColumnMentions(x, ColumnOf(r).value);
    ColumnMentions(y, ColumnOf(r).value);
    forall env | Fixed(env, cols, collates) ensures Right(env, l) {
      BuildKeepsMeaning(env, l);
    }
    DigitsKeptExactly(cols, collates, f, l, r);
    forall n: int ensures CanYield(cols, collates, l, n) <==> n == 0 || n == 1 {
      ItemYields(cols, collates, x, neg, y, n);
    }
    DigitTexts();
  }

  lemma {:induction false} ItemFaithful(cols: Columns, x: Surface, neg: bool, y: Surface)
    requires ColumnOf(x).Some? && ColumnOf(y).Some? && !HiddenItem(cols, x, y) && !TakenItem(cols, x, y)
    ensures Faithful(cols, InText(x, neg, [y]))
  {
    hide HiddenItem, TakenItem, ColumnOf, TextCollation;
    ColumnFaithful(cols, x);
    ColumnFaithful(cols, y);
    ColumnRemains(x);
  }

  /** For a COLLATE at the item and nowhere else, these are the collation of that operator, forgotten, and the
      column's own. */
  lemma {:induction false} ItemForgets(cols: Columns, f: Form, x: Surface, neg: bool, y: Surface, r: Surface)
    requires ColumnOf(x).Some? && ColumnOf(r).Some? && !Explicit(x) && Explicit(y) && !Explicit(r)
    ensures SaidBy(cols, f, InText(x, neg, [y]), r) == TextCollation(cols, y)
    ensures MadeBy(cols, f, InText(x, neg, [y]), r) == TextCollation(cols, r)
  {
    var l := InText(x, neg, [y]);
    ColumnRemains(x);
    ColumnRemains(r);
    assert l.items[0] == y;
    assert Explicit(l) && TextCollation(cols, l) == ItemCollation(cols, l, 0) == TextCollation(cols, y);
    assert Remains(l) == InText(x, neg, []) && !Explicit(Remains(l));
    assert TextCollation(cols, Remains(l)) == ItemCollation(cols, Remains(l), 0) == None;
  }

  // ----- Values that go wrong -----

  const IN_EMPTY: Surface := InText(CollateText(Atom(0), 1), false, [])
  const AND_ZERO: Surface := AndText(CollateText(Atom(0), 1), IntegerWord(0))
  const IN_ITEM: Surface := InText(Atom(0), false, [CollateText(Atom(1), 1)])

  /** Column 2 is a TEXT column with a 0 and a space; collation 1 is RTRIM, and collation 0, BINARY, is that of all
      columns. */
  const COLUMNS: Columns := Columns((id: nat) => if id == 2 then TextAffinity else Blob, (_: nat) => Some(0))
  const ROW: Env := Env((id: nat) => if id == 2 then Text("0 ") else if id == 1 then Int(6) else Int(5), COLUMNS,
                        (k: nat, s: string, t: string) => BinCollEqual(k == 1, s, t),
                        (_: string) => false, (_: string) => Null)

  lemma {:induction false} ZeroWithSpace()
    ensures EqOf(ROW, Rule(TextAffinity, Some(1)), Int(0), Text("0 ")) == Int(1)
    ensures EqOf(ROW, Rule(TextAffinity, Some(0)), Int(0), Text("0 ")) == Int(0)
  {
    DigitTexts();
    BinCollTakes("0", "0 ");
    assert "0 "[..1] == "0";
    assert Stripped("0 ") == Stripped("0") == "0";
  }

  lemma {:induction false} LostHere(l: Surface)
    requires Right(ROW, l) && Meaning(ROW, l) == Int(0) && Digits(l)
    requires ComparedBy(COLUMNS, l, Atom(2)) == Some(1) && ComparedBy(COLUMNS, Remains(l), Atom(2)) == Some(0)
    ensures Meaning(ROW, Compared(l, false, Atom(2))) == Int(1)
    ensures Evaluate(ROW, Build(Compared(l, false, Atom(2)))) == Int(0)
  {
    hide EqOf, ComparedBy, RuleOf, Remains, Digits, BinCollEqual, TextCollation, Explicit;
    ZeroWithSpace();
    DigitsHaveNoAffinity(COLUMNS, l);
    ColumnRemains(Atom(2));
    BuildRule(COLUMNS, l, Atom(2));
    assert TextAffinityOf(COLUMNS, Atom(2)) == TextAffinity;
    assert TextRule(COLUMNS, l, Atom(2)) == Rule(TextAffinity, Some(1));
    assert UsedRule(COLUMNS, l, Atom(2)) == Rule(TextAffinity, Some(0));
  }

  lemma {:induction false} ForgottenBy(l: Surface)
    requires Explicit(l) && !Explicit(Remains(l))
    requires TextCollation(COLUMNS, l) == Some(1) && TextCollation(COLUMNS, Remains(l)) == None
    ensures ComparedBy(COLUMNS, l, Atom(2)) == Some(1) && ComparedBy(COLUMNS, Remains(l), Atom(2)) == Some(0)
  {
    assert !Explicit(Atom(2)) && TextCollation(COLUMNS, Atom(2)) == Some(0);
  }

  lemma {:induction false} ConstantsForget()
    ensures Right(ROW, IN_EMPTY) && Meaning(ROW, IN_EMPTY) == Int(0)
    ensures Right(ROW, AND_ZERO) && Meaning(ROW, AND_ZERO) == Int(0)
    ensures ComparedBy(COLUMNS, IN_EMPTY, Atom(2)) == Some(1)
    ensures ComparedBy(COLUMNS, Remains(IN_EMPTY), Atom(2)) == Some(0)
    ensures ComparedBy(COLUMNS, AND_ZERO, Atom(2)) == Some(1)
    ensures ComparedBy(COLUMNS, Remains(AND_ZERO), Atom(2)) == Some(0)
  {
    hide Right, Meaning, ComparedBy;
    IntegerRight(ROW, IN_EMPTY);
    IntegerRight(ROW, AND_ZERO);
    IntegerRemains(IN_EMPTY);
    IntegerRemains(AND_ZERO);
    ForgottenBy(IN_EMPTY);
    ForgottenBy(AND_ZERO);
  }

  lemma {:induction false} ItemForgotten()
    ensures Right(ROW, IN_ITEM) && Meaning(ROW, IN_ITEM) == Int(0)
    ensures ComparedBy(COLUMNS, IN_ITEM, Atom(2)) == Some(1)
    ensures ComparedBy(COLUMNS, Remains(IN_ITEM), Atom(2)) == Some(0)
  {
    hide Right, Meaning, ComparedBy;
    var x, y := Atom(0), CollateText(Atom(1), 1);
    ColumnRight(ROW, x);
    ColumnRight(ROW, y);
    ItemMeans(ROW, x, false, y);
    ItemFaithful(COLUMNS, x, false, y);
    BuildKeepsMeaning(ROW, IN_ITEM);
    ItemForgets(COLUMNS, Form(false, false, false), x, false, y, Atom(2));
    ColumnRemains(Atom(2));
  }

  /** In all three the text is true, as 0 and a space is a 0 but for the space, and the tree false:
      (a COLLATE c IN ()) = b, (a COLLATE c AND 0) = b and (a IN (d COLLATE c)) = b. */
  lemma {:induction false} LostCollateChanges()
    ensures Stores(ROW)
    ensures forall l :: l == IN_EMPTY || l == AND_ZERO || l == IN_ITEM ==>
      && Meaning(ROW, Compared(l, false, Atom(2))) == Int(1)
      && Evaluate(ROW, Build(Compared(l, false, Atom(2)))) == Int(0)
  {
    hide Right, Meaning, ComparedBy, Build, Evaluate;
    ConstantsForget();
    ItemForgotten();
    LostHere(IN_EMPTY);
    LostHere(AND_ZERO);
    LostHere(IN_ITEM);
  }
}
