/** Texts for which the actions keep the meaning without any condition on columns: those that have no COLLATE, no
    likely(), no alias and no unary plus. */
module OrdinaryTexts {
  import opened ExprTrees
  import opened ExprRewrites
  import opened ExprTexts
  import opened TextMeanings
  import opened ValueLaws

  predicate Ordinary(s: Surface) {
    match s
    case AliasName(_) => false
    case CollateText(_, _) => false
    case LikelyText(_) => false
    case Group(inner) => Ordinary(inner)
    case Applied(op, inner) => op != UPlus && Ordinary(inner)
    case Compared(left, _, right) => Ordinary(left) && Ordinary(right)
    case AndText(left, right) => Ordinary(left) && Ordinary(right)
    case IsText(left, _, right) => Ordinary(left) && Ordinary(right)
    case InText(left, _, items) => Ordinary(left) && forall i :: 0 <= i < |items| ==> Ordinary(items[i])
    case CaseText(base, arms, other) =>
      && (base.Some? ==> Ordinary(base.value))
      && (forall k :: 0 <= k < |arms| ==> OrdinaryArm(arms[k]))
      && (other.Some? ==> Ordinary(other.value))
    case _ => true
  }

  predicate OrdinaryArm(arm: (Surface, Surface)) {
    Ordinary(arm.0) && Ordinary(arm.1)
  }

  predicate ArmExplicit(arm: (Surface, Surface)) {
    Explicit(arm.0) || Explicit(arm.1)
  }

  lemma {:induction false} NotExplicit(s: Surface)
    requires Ordinary(s)
    ensures !Explicit(s)
  {
    match s {
      case Group(inner) => NotExplicit(inner);
      case Applied(_, inner) => NotExplicit(inner);
      case Compared(left, _, right) => NotExplicit(left); NotExplicit(right);
      case AndText(left, right) => NotExplicit(left); NotExplicit(right);
      case IsText(left, _, right) => NotExplicit(left); NotExplicit(right);
      case InText(left, _, items) =>
        NotExplicit(left);
        forall i | 0 <= i < |items| ensures !Explicit(items[i]) {
          NotExplicit(items[i]);
        }
      case CaseText(base, arms, other) =>
        if base.Some? {
          NotExplicit(base.value);
        }
        if other.Some? {
          NotExplicit(other.value);
        }
        forall k | 0 <= k < |arms| ensures !ArmExplicit(arms[k]) {
          assert OrdinaryArm(arms[k]);
          NotExplicit(arms[k].0);
          NotExplicit(arms[k].1);
        }
      case _ =>
    }
  }

  /** What remains of a text has no COLLATE operator that the text has not. */
  lemma {:induction false} RemainsExplicit(s: Surface)
    requires !Explicit(s)
    ensures !Explicit(Remains(s))
  {
    match s {
      case Group(inner) => RemainsExplicit(inner);
      case LikelyText(inner) => RemainsExplicit(inner);
      case Applied(_, inner) => RemainsExplicit(inner);
      case Compared(left, _, right) => RemainsExplicit(left); RemainsExplicit(right);
      case AndText(left, right) => RemainsExplicit(left); RemainsExplicit(right);
      case IsText(left, _, right) => RemainsExplicit(left); RemainsExplicit(right);
      case InText(left, _, items) =>
        RemainsExplicit(left);
        forall i | 0 <= i < |items| ensures !Explicit(Remains(items[i])) {
          RemainsExplicit(items[i]);
        }
      case CaseText(base, arms, other) =>
        if base.Some? {
          RemainsExplicit(base.value);
        }
        if other.Some? {
          RemainsExplicit(other.value);
        }
        forall k | 0 <= k < |arms| ensures !Explicit(Remains(arms[k].0)) && !Explicit(Remains(arms[k].1)) {
          assert !ArmExplicit(arms[k]);
          RemainsExplicit(arms[k].0);
          RemainsExplicit(arms[k].1);
        }
        CaseExplicit(s);
      case _ =>
    }
  }

  lemma {:induction false} NoItemCollation(cols: Columns, s: Surface, i: nat)
    requires s.InText? && i <= |s.items| && !Explicit(s)
    ensures ItemCollation(cols, s, i) == None
    decreases |s.items| - i
  {
    if i < |s.items| {
      NoItemCollation(cols, s, i + 1);
    }
  }

  lemma {:induction false} NoArmCollation(cols: Columns, s: Surface, k: nat)
    requires s.CaseText? && k <= |s.arms| && !Explicit(s)
    ensures ArmCollation(cols, s, k) == None
    decreases |s.arms| - k
  {
    if k < |s.arms| {
      assert !ArmExplicit(s.arms[k]);
      NoArmCollation(cols, s, k + 1);
    }
  }

  /** Without COLLATE operators there is a collation for columns alone, so that none is lost. */
  lemma {:induction false} SameCollation(cols: Columns, s: Surface)
    requires Ordinary(s)
    ensures TextCollation(cols, Remains(s)) == TextCollation(cols, s)
    ensures !Explicit(s) && !Explicit(Remains(s))
  {
    NotExplicit(s);
    RemainsExplicit(s);
    match s {
      case Group(inner) => SameCollation(cols, inner);
      case InText(_, _, items) =>
        NoItemCollation(cols, s, 0);
        if items != [] {
          NoItemCollation(cols, Remains(s), 0);
        }
      case CaseText(_, _, _) =>
        NoArmCollation(cols, s, 0);
        NoArmCollation(cols, Remains(s), 0);
      case _ =>
    }
  }

  /** Nothing covers it, and it is neither a plus nor an alias. */
  lemma {:induction false} OnTop(s: Surface)
    requires Ordinary(s)
    ensures !Covered(s) && !Plus(s) && !Ungrouped(s).AliasName?
  {
    if s.Group? {
      OnTop(s.inner);
    }
  }

  lemma {:induction false} PairFaithful(cols: Columns, left: Surface, right: Surface)
    requires Ordinary(left) && Ordinary(right)
    ensures ComparedBy(cols, Remains(left), Remains(right)) == ComparedBy(cols, left, right)
    ensures CaseKept(cols, left, right)
  {
    SameCollation(cols, left);
    SameCollation(cols, right);
    OnTop(left);
  }

  /** An ordinary text is faithful, however the columns are declared. */
  lemma {:induction false} OrdinaryIsFaithful(cols: Columns, s: Surface)
    requires Ordinary(s)
    ensures Faithful(cols, s)
    decreases s, 1
  {
    match s {
      case Group(inner) => OrdinaryIsFaithful(cols, inner);
      case Applied(_, inner) => OrdinaryIsFaithful(cols, inner);
      case Compared(left, _, right) =>
        OrdinaryIsFaithful(cols, left);
        OrdinaryIsFaithful(cols, right);
        PairFaithful(cols, left, right);
      case AndText(left, right) =>
        OrdinaryIsFaithful(cols, left);
        OrdinaryIsFaithful(cols, right);
      case IsText(left, _, right) =>
        OrdinaryIsFaithful(cols, left);
        OrdinaryIsFaithful(cols, right);
        PairFaithful(cols, left, right);
      case InText(left, _, items) =>
        OrdinaryIsFaithful(cols, left);
        SameCollation(cols, left);
        forall i | 0 <= i < |items| ensures Faithful(cols, items[i]) {
          OrdinaryIsFaithful(cols, items[i]);
        }
        if |items| == 1 {
          OnTop(items[0]);
        }
      case CaseText(_, _, _) => OrdinaryCase(cols, s);
      case _ =>
    }
  }

  lemma {:induction false} OrdinaryCase(cols: Columns, s: Surface)
    requires s.CaseText? && Ordinary(s)
    ensures Faithful(cols, s)
    decreases s, 0
  {
    hide CaseKept;
    if s.base.Some? {
      OrdinaryIsFaithful(cols, s.base.value);
    }
    if s.other.Some? {
      OrdinaryIsFaithful(cols, s.other.value);
    }
    forall k | 0 <= k < |s.arms|
      ensures FaithfulArm(cols, s.arms[k]) && (s.base.Some? ==> CaseKept(cols, s.base.value, s.arms[k].0))
    {
      assert OrdinaryArm(s.arms[k]);
      OrdinaryIsFaithful(cols, s.arms[k].0);
      OrdinaryIsFaithful(cols, s.arms[k].1);
      if s.base.Some? {
        PairFaithful(cols, s.base.value, s.arms[k].0);
      }
    }
  }

  /** So the tree of an ordinary text evaluates to what the text says, for all values that the columns can hold. */
  lemma {:induction false} OrdinaryKeepsMeaning(env: Env, s: Surface)
    requires Stores(env) && Ordinary(s)
    ensures Evaluate(env, Build(s)) == Meaning(env, s)
  {
    hide Meaning, Evaluate, Build, Faithful, Ordinary;
    OrdinaryIsFaithful(env.columns, s);
    BuildKeepsMeaning(env, s);
  }

  /** The tree of x NOT IN (..) holds if and only if the comparison with every item is false: a NULL anywhere in it
      keeps a row out, unless the list is empty. */
  lemma {:induction false} NotInTree(env: Env, left: Surface, items: seq<Surface>)
    requires Stores(env) && Faithful(env.columns, InText(left, true, items))
    ensures Holds(env, Evaluate(env, Build(InText(left, true, items)))) <==>
            forall i :: 0 <= i < |items| ==>
              EqOf(env, TextInRule(env.columns, left), Meaning(env, left), Meaning(env, items[i])) == Int(0)
  {
    hide Evaluate, Build, Faithful, EqOf, TextInRule, InOf;
    var s := InText(left, true, items);
    var list := seq(|items|, i requires 0 <= i < |items| => Meaning(env, items[i]));
    BuildKeepsMeaning(env, s);
    var given := InOf(env, TextInRule(env.columns, left), Meaning(env, left), list);
    assert Meaning(env, s) == Negated(true, given);
    NotInHolds(env, TextInRule(env.columns, left), Meaning(env, left), list);
    assert forall i :: 0 <= i < |items| ==> list[i] == Meaning(env, items[i]);
  }
}
