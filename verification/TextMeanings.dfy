/** The trees that the actions build evaluate to what the texts say. */
module TextMeanings {
  import opened ExprTrees
  import opened ExprRewrites
  import opened ExprTexts

  // ----- How the trees compare, told from the texts -----

  function UsedRule(cols: Columns, left: Surface, right: Surface): Rule {
    Rule(CompareAffinity(TextAffinityOf(cols, left), TextAffinityOf(cols, right)),
         ComparedBy(cols, Remains(left), Remains(right)))
  }

  lemma {:induction false} BuildRule(cols: Columns, left: Surface, right: Surface)
    ensures RuleOf(cols, Build(left), Build(right)) == UsedRule(cols, left, right)
    ensures InRule(cols, Build(left))
            == Rule(CompareAffinity(TextAffinityOf(cols, left), NoAffinity), TextCollation(cols, Remains(left)))
  {
    hide Build, Explicit, TextCollation, CollationOf, AffinityOf, TextAffinityOf;
    BuildAffinity(cols, left);
    BuildAffinity(cols, right);
    BuildCollates(cols, left);
    BuildCollates(cols, right);
  }

  /** A COLLATE or likely() on top. */
  predicate Covered(s: Surface) {
    Ungrouped(s).CollateText? || Ungrouped(s).LikelyText?
  }

  predicate Plus(s: Surface) {
    Ungrouped(s).Applied? && Ungrouped(s).uop == UPlus
  }

  /** The collation for the base of a CASE and a WHEN: a plus on the base hides that of its column. */
  function CaseComparedBy(cols: Columns, base: Surface, when: Surface): Collation {
    var b, w := Remains(base), Remains(when);
    var own := if Plus(base) && !Explicit(b) then None else TextCollation(cols, b);
    if !Explicit(b) && (Explicit(w) || own.None?) then TextCollation(cols, w) else own
  }

  /** A COLLATE or likely() on the base hides its affinity. */
  function UsedCaseRule(cols: Columns, base: Surface, when: Surface): Rule {
    Rule(CompareAffinity(if Covered(base) then NoAffinity else TextAffinityOf(cols, base), TextAffinityOf(cols, when)),
         CaseComparedBy(cols, base, when))
  }

  lemma {:induction false} BuildPlus(s: Surface)
    ensures Build(s).Unary? && Build(s).uop == UPlus <==> Plus(s)
    ensures Plus(s) ==> Build(s).operand.flags.collate == Build(s).flags.collate
  {
    if s.Group? {
      BuildPlus(s.inner);
    }
  }

  lemma {:induction false} BuildCaseRule(cols: Columns, base: Surface, when: Surface)
    ensures CaseRule(cols, Build(base), Build(when)) == UsedCaseRule(cols, base, when)
  {
    hide Build, Explicit, TextCollation, CollationOf, AffinityOf, TextAffinityOf;
    BuildAffinity(cols, base);
    BuildAffinity(cols, when);
    BuildCollates(cols, base);
    BuildCollates(cols, when);
    BuildPlus(base);
  }

  // ----- Texts whose comparisons are made as they say -----

  /** The mark on the item of a one-item list is hidden by an operator on top, or lost with an alias. */
  predicate HiddenItem(cols: Columns, left: Surface, item: Surface) {
    && (Covered(item) || Ungrouped(item).AliasName?)
    && Overrides(TextAffinityOf(cols, left), TextAffinityOf(cols, item))
  }

  /** An alias as item lends its collation to a left-hand side that has none. */
  predicate TakenItem(cols: Columns, left: Surface, item: Surface) {
    && Ungrouped(item).AliasName? && cols.collation(Ungrouped(item).id).Some?
    && !Explicit(Remains(left)) && TextCollation(cols, Remains(left)).None?
  }

  /** The base of a CASE is compared to a WHEN as = would compare them. */
  predicate CaseKept(cols: Columns, base: Surface, when: Surface) {
    && (Covered(base) ==> !Overrides(TextAffinityOf(cols, when), TextAffinityOf(cols, base)))
    && CaseComparedBy(cols, base, when) == ComparedBy(cols, base, when)
  }

  /** Every comparison that the text makes is by the collation it says; no item hides its mark, and no base of a CASE
      what it is compared by. */
  predicate Faithful(cols: Columns, s: Surface) {
    match s
    case Group(inner) => Faithful(cols, inner)
    case CollateText(inner, _) => Faithful(cols, inner)
    case LikelyText(inner) => Faithful(cols, inner)
    case Applied(_, inner) => Faithful(cols, inner)
    case Compared(left, _, right) =>
      && Faithful(cols, left) && Faithful(cols, right)
      && ComparedBy(cols, Remains(left), Remains(right)) == ComparedBy(cols, left, right)
    case AndText(left, right) => Faithful(cols, left) && Faithful(cols, right)
    case IsText(left, _, right) =>
      && Faithful(cols, left) && Faithful(cols, right)
      && ComparedBy(cols, Remains(left), Remains(right)) == ComparedBy(cols, left, right)
    case InText(left, _, items) =>
      && Faithful(cols, left) && TextCollation(cols, Remains(left)) == TextCollation(cols, left)
      && (forall i :: 0 <= i < |items| ==> Faithful(cols, items[i]))
      && (|items| == 1 ==> !HiddenItem(cols, left, items[0]) && !TakenItem(cols, left, items[0]))
    case CaseText(base, arms, other) =>
      && (base.Some? ==> Faithful(cols, base.value))
      && (forall k :: 0 <= k < |arms| ==> FaithfulArm(cols, arms[k]))
      && (base.Some? ==> forall k :: 0 <= k < |arms| ==> CaseKept(cols, base.value, arms[k].0))
      && (other.Some? ==> Faithful(cols, other.value))
    case _ => true
  }

  predicate FaithfulArm(cols: Columns, arm: (Surface, Surface)) {
    Faithful(cols, arm.0) && Faithful(cols, arm.1)
  }

  // ----- The trees evaluate to what the texts say -----

  /** The tree evaluates to what the text says. */
  ghost predicate Right(env: Env, s: Surface) {
    Evaluate(env, Build(s)) == Meaning(env, s)
  }

  ghost predicate ArmRight(env: Env, arm: (Surface, Surface)) {
    Right(env, arm.0) && Right(env, arm.1)
  }

  /** What an affinity the text has is of: a column, with a value that the column can hold. */
  lemma {:induction false} TextFits(env: Env, s: Surface)
    requires Stores(env) && Right(env, s)
    ensures CanStore(TextAffinityOf(env.columns, s), Meaning(env, s))
  {
    OperandFits(env, Build(s));
    BuildAffinity(env.columns, s);
  }

  /** Where the base does not override, storable values compare as by the WHEN alone. */
  lemma {:induction false} SameAsWithout(env: Env, c: Collation, a: Affinity, b: Affinity, v: Value, w: Value)
    requires !Overrides(b, a) && CanStore(a, v) && CanStore(b, w)
    ensures EqOf(env, Rule(CompareAffinity(NoAffinity, b), c), v, w) == EqOf(env, Rule(CompareAffinity(a, b), c), v, w)
  {
  }

  lemma {:induction false} ArmTestRight(env: Env, s: Surface, e: Expr, i: nat, k: nat)
    requires s.CaseText? && k < |s.arms| && Stores(env) && Right(env, s.arms[k].0)
    requires s.base.Some? ==> Right(env, s.base.value) && CaseKept(env.columns, s.base.value, s.arms[k].0)
    requires e.CaseList? && i < |e.list| && e.base == BuildOther(s.base) && e.list[i] == Build(s.arms[k].0)
    ensures CaseTest(env, e, i) == ArmTest(env, s, k)
  {
    hide Build, TextAffinityOf, CaseComparedBy, ComparedBy, Prepared, CanStore, Overrides;
    if s.base.Some? {
      var cols, base, when := env.columns, s.base.value, s.arms[k].0;
      BuildCaseRule(cols, base, when);
      TextFits(env, base);
      TextFits(env, when);
      if Covered(base) {
        SameAsWithout(env, ComparedBy(cols, base, when), TextAffinityOf(cols, base), TextAffinityOf(cols, when),
                      Meaning(env, base), Meaning(env, when));
      }
    }
  }

  ghost predicate PartsRight(env: Env, s: Surface)
    requires s.CaseText?
  {
    && (s.base.Some? ==> Right(env, s.base.value))
    && (forall k :: 0 <= k < |s.arms| ==> ArmRight(env, s.arms[k]))
    && (s.base.Some? ==> forall k :: 0 <= k < |s.arms| ==> CaseKept(env.columns, s.base.value, s.arms[k].0))
    && (s.other.Some? ==> Right(env, s.other.value))
  }

  lemma {:induction false} CaseKeepsMeaning(env: Env, s: Surface, k: nat)
    requires s.CaseText? && k <= |s.arms| && Stores(env) && PartsRight(env, s)
    ensures Build(s).CaseList? && |Build(s).list| / 2 == |s.arms|
    ensures EvaluateCase(env, Build(s), 2 * k) == CaseMeaning(env, s, k)
    decreases |s.arms| - k
  {
    var arms, other := BuildArms(s.arms), BuildOther(s.other);
    BuildCase(s);
    CaseItemsDecode(arms, other);
    if k < |s.arms| {
      CaseKeepsMeaning(env, s, k + 1);
      assert (Build(s).list[2*k], Build(s).list[2*k+1]) == arms[k];
      assert ArmRight(env, s.arms[k]);
      ArmTestRight(env, s, Build(s), 2 * k, k);
    }
  }

  lemma {:induction false} ComparedRight(env: Env, s: Surface)
    requires s.Compared? && Faithful(env.columns, s) && Right(env, s.left) && Right(env, s.right)
    ensures Right(env, s)
  {
    BuildRule(env.columns, s.left, s.right);
  }

  lemma {:induction false} IsTextRight(env: Env, s: Surface)
    requires s.IsText? && Faithful(env.columns, s) && Right(env, s.left) && Right(env, s.right)
    ensures Right(env, s)
  {
    BuildRule(env.columns, s.left, s.right);
    IsKeepsMeaning(env, Build(s.left), s.neg, Build(s.right));
  }

  lemma {:induction false} InTextRight(env: Env, s: Surface)
    requires s.InText? && Stores(env) && Faithful(env.columns, s) && Right(env, s.left)
    requires forall i :: 0 <= i < |s.items| ==> Right(env, s.items[i])
    ensures Right(env, s)
  {
    var cols, list := env.columns, BuildAll(s.items);
    BuildRule(cols, s.left, s.left);
    BuildAffinity(cols, s.left);
    BuildCollates(cols, s.left);
    if |s.items| == 1 {
      BuildAffinity(cols, s.items[0]);
    }
    InKeepsMeaning(env, Build(s.left), s.neg, list);
    assert EvaluateAll(env, list) == seq(|s.items|, i requires 0 <= i < |s.items| => Meaning(env, s.items[i])) by {
      assert forall i :: 0 <= i < |s.items| ==> Right(env, s.items[i]);
    }
  }

  lemma {:induction false} AndTextRight(env: Env, s: Surface)
    requires s.AndText? && Right(env, s.left) && Right(env, s.right)
    ensures Right(env, s)
  {
    AndKeepsMeaning(env, Build(s.left), Build(s.right));
  }

  lemma {:induction false} WrappedRight(env: Env, s: Surface)
    requires s.Group? || s.CollateText? || s.LikelyText? || s.Applied?
    requires Right(env, s.inner)
    ensures Right(env, s)
  {
  }

  lemma {:induction false} WordRight(env: Env, s: Surface)
    requires s.Atom? || s.AliasName? || s.IntegerWord? || s.NullWord?
    ensures Right(env, s)
  {
  }

  /** If the parts evaluate to what they say, so does the text. */
  ghost predicate PartsOf(env: Env, s: Surface) {
    match s
    case Group(inner) => Right(env, inner)
    case CollateText(inner, _) => Right(env, inner)
    case LikelyText(inner) => Right(env, inner)
    case Applied(_, inner) => Right(env, inner)
    case Compared(left, _, right) => Right(env, left) && Right(env, right)
    case AndText(left, right) => Right(env, left) && Right(env, right)
    case IsText(left, _, right) => Right(env, left) && Right(env, right)
    case InText(left, _, items) =>
      Right(env, left) && forall i :: 0 <= i < |items| ==> Right(env, items[i])
    case CaseText(base, arms, other) =>
      && (base.Some? ==> Right(env, base.value))
      && (forall k :: 0 <= k < |arms| ==> ArmRight(env, arms[k]))
      && (other.Some? ==> Right(env, other.value))
    case _ => true
  }

  lemma {:induction false} RightFromParts(env: Env, s: Surface)
    requires Stores(env) && Faithful(env.columns, s) && PartsOf(env, s)
    ensures Right(env, s)
  {
    match s {
      case Compared(_, _, _) => ComparedRight(env, s);
      case AndText(_, _) => AndTextRight(env, s);
      case IsText(_, _, _) => IsTextRight(env, s);
      case InText(_, _, _) => InTextRight(env, s);
      case CaseText(_, _, _) => CaseKeepsMeaning(env, s, 0);
      case Group(_) => WrappedRight(env, s);
      case CollateText(_, _) => WrappedRight(env, s);
      case LikelyText(_) => WrappedRight(env, s);
      case Applied(_, _) => WrappedRight(env, s);
      case _ => WordRight(env, s);
    }
  }

  /** Every faithful text, for all values that the columns can hold. */
  lemma {:induction false} BuildKeepsMeaning(env: Env, s: Surface)
    requires Stores(env) && Faithful(env.columns, s)
    ensures Right(env, s)
    decreases s, 1
  {
    hide Right, Stores;
    match s {
      case Group(inner) => BuildKeepsMeaning(env, inner);
      case CollateText(inner, _) => BuildKeepsMeaning(env, inner);
      case LikelyText(inner) => BuildKeepsMeaning(env, inner);
      case Applied(_, inner) => BuildKeepsMeaning(env, inner);
      case Compared(left, _, right) =>
        BuildKeepsMeaning(env, left);
        BuildKeepsMeaning(env, right);
      case AndText(left, right) =>
        BuildKeepsMeaning(env, left);
        BuildKeepsMeaning(env, right);
      case IsText(left, _, right) =>
        BuildKeepsMeaning(env, left);
        BuildKeepsMeaning(env, right);
      case InText(left, _, items) =>
        BuildKeepsMeaning(env, left);
        ItemsKeepMeaning(env, s);
      case CaseText(base, arms, other) =>
        ArmsKeepMeaning(env, s);
      case _ =>
    }
    RightFromParts(env, s);
  }

  lemma {:induction false} ItemsKeepMeaning(env: Env, s: Surface)
    requires Stores(env) && Faithful(env.columns, s) && s.InText?
    ensures forall i :: 0 <= i < |s.items| ==> Right(env, s.items[i])
    decreases s, 0
  {
    forall i | 0 <= i < |s.items| ensures Right(env, s.items[i]) {
      BuildKeepsMeaning(env, s.items[i]);
    }
  }

  lemma {:induction false} ArmsKeepMeaning(env: Env, s: Surface)
    requires Stores(env) && Faithful(env.columns, s) && s.CaseText?
    ensures PartsOf(env, s)
    decreases s, 0
  {
    if s.base.Some? {
      BuildKeepsMeaning(env, s.base.value);
    }
    if s.other.Some? {
      BuildKeepsMeaning(env, s.other.value);
    }
    forall k | 0 <= k < |s.arms| ensures ArmRight(env, s.arms[k]) {
      assert FaithfulArm(env.columns, s.arms[k]);
      BuildKeepsMeaning(env, s.arms[k].0);
      BuildKeepsMeaning(env, s.arms[k].1);
    }
  }

  /** A text that becomes a constant means that constant, whatever is below. */
  lemma {:induction false} IntegerMeans(env: Env, s: Surface)
    requires TextInteger(s).Some?
    ensures Meaning(env, s) == Int(TextInteger(s).value)
  {
    match s {
      case Group(inner) => IntegerMeans(env, inner);
      case Applied(_, inner) => IntegerMeans(env, inner);
      case AndText(left, right) =>
        if TextInteger(left) == Some(0) {
          IntegerMeans(env, left);
        } else {
          IntegerMeans(env, right);
        }
      case _ =>
    }
  }

  lemma {:induction false} IntegerRight(env: Env, s: Surface)
    requires TextInteger(s).Some?
    ensures Right(env, s) && Meaning(env, s) == Int(TextInteger(s).value)
  {
    IntegerMeans(env, s);
    BuildInteger(s);
    IntegerOfEvaluates(env, Build(s));
  }

  // ----- The two forms of CASE -----

  /** CASE WHEN x = e THEN .. for CASE x WHEN e THEN .. */
  function FormB(base: Surface, arms: seq<(Surface, Surface)>, other: Option<Surface>): Surface {
    CaseText(None, seq(|arms|, k requires 0 <= k < |arms| => (Compared(base, false, arms[k].0), arms[k].1)), other)
  }

  lemma {:induction false} FormsAgreeFrom(env: Env, base: Surface, arms: seq<(Surface, Surface)>,
                                          other: Option<Surface>, k: nat)
    requires k <= |arms|
    ensures CaseMeaning(env, CaseText(Some(base), arms, other), k) == CaseMeaning(env, FormB(base, arms, other), k)
    decreases |arms| - k
  {
    if k < |arms| {
      FormsAgreeFrom(env, base, arms, other, k + 1);
      assert FormB(base, arms, other).arms[k] == (Compared(base, false, arms[k].0), arms[k].1);
      assert ArmTest(env, CaseText(Some(base), arms, other), k) == ArmTest(env, FormB(base, arms, other), k);
    }
  }

  /** A CASE with a base means what the form without one means. */
  lemma {:induction false} FormsAgree(env: Env, base: Surface, arms: seq<(Surface, Surface)>, other: Option<Surface>)
    ensures Meaning(env, CaseText(Some(base), arms, other)) == Meaning(env, FormB(base, arms, other))
  {
    FormsAgreeFrom(env, base, arms, other, 0);
  }
}
