/** The meaning of an expression told from its text alone, and what the tree that the actions build for it says of
    affinity and collation. */
module ExprTexts {
  import opened ExprTrees
  import opened ExprRewrites

  datatype Surface =
    | Atom(id: nat)
    | AliasName(id: nat)
    | IntegerWord(n: nat)
    | NullWord
    | Group(inner: Surface)
    | CollateText(inner: Surface, name: nat)
    | LikelyText(inner: Surface)
    | Applied(uop: UnaryOp, inner: Surface)
    | Compared(left: Surface, neg: bool, right: Surface)
    | AndText(left: Surface, right: Surface)
    | IsText(left: Surface, neg: bool, right: Surface)
    | InText(left: Surface, neg: bool, items: seq<Surface>)
    | CaseText(base: Option<Surface>, arms: seq<(Surface, Surface)>, other: Option<Surface>)

  /** The tree that the actions build for a text. */
  function Build(s: Surface): Expr {
    match s
    case Atom(id) => Leaf(id, NOFLAGS)
    case AliasName(id) => Alias(id, NOFLAGS)
    case IntegerWord(n) => Number(n, NOFLAGS)
    case NullWord => NullLiteral(NOFLAGS)
    case Group(inner) => Build(inner)
    case CollateText(inner, name) => Collated(Build(inner), name, Flags(true, false))
    case LikelyText(inner) => Likely(Build(inner), FlagsFrom(Build(inner).flags.collate))
    case Applied(op, inner) => MakeUnary(op, Build(inner))
    case Compared(left, neg, right) => MakeBinary(if neg then Ne else Eq, Build(left), Build(right))
    case AndText(left, right) => AndAction(Build(left), Build(right))
    case IsText(left, neg, right) => IsAction(Build(left), neg, Build(right))
    case InText(left, neg, items) =>
      InAction(Build(left), neg, seq(|items|, i requires 0 <= i < |items| => Build(items[i])))
    case CaseText(base, arms, other) =>
      CaseAction(if base.Some? then Some(Build(base.value)) else None,
                 seq(|arms|, i requires 0 <= i < |arms| => (Build(arms[i].0), Build(arms[i].1))),
                 if other.Some? then Some(Build(other.value)) else None)
  }

  // ----- What a text says of affinity and collation, told from the text alone -----

  function Ungrouped(s: Surface): Surface {
    if s.Group? then Ungrouped(s.inner) else s
  }

  function TextAffinityOf(cols: Columns, s: Surface): Affinity {
    match s
    case Atom(id) => cols.affinity(id)
    case AliasName(id) => cols.affinity(id)
    case Group(inner) => TextAffinityOf(cols, inner)
    case CollateText(inner, _) => TextAffinityOf(cols, inner)
    case LikelyText(inner) => TextAffinityOf(cols, inner)
    case _ => NoAffinity
  }

  /** There is a COLLATE operator somewhere in the text. */
  predicate Explicit(s: Surface) {
    match s
    case Atom(_) => false
    case AliasName(_) => false
    case IntegerWord(_) => false
    case NullWord => false
    case Group(inner) => Explicit(inner)
    case CollateText(_, _) => true
    case LikelyText(inner) => Explicit(inner)
    case Applied(_, inner) => Explicit(inner)
    case Compared(left, _, right) => Explicit(left) || Explicit(right)
    case AndText(left, right) => Explicit(left) || Explicit(right)
    case IsText(left, _, right) => Explicit(left) || Explicit(right)
    case InText(left, _, items) => Explicit(left) || exists i :: 0 <= i < |items| && Explicit(items[i])
    case CaseText(base, arms, other) =>
      || (base.Some? && Explicit(base.value))
      || (exists k :: 0 <= k < |arms| && (Explicit(arms[k].0) || Explicit(arms[k].1)))
      || (other.Some? && Explicit(other.value))
  }

  /** The first COLLATE operator from the left decides; without one, a column alone, or under a plus. */
  function TextCollation(cols: Columns, s: Surface): Collation
    decreases s, 1, 0
  {
    match s
    case Atom(id) => cols.collation(id)
    case AliasName(id) => cols.collation(id)
    case Group(inner) => TextCollation(cols, inner)
    case CollateText(_, name) => Some(name)
    case LikelyText(inner) => if Explicit(inner) then TextCollation(cols, inner) else None
    case Applied(op, inner) => if op == UPlus || Explicit(inner) then TextCollation(cols, inner) else None
    case Compared(left, _, right) =>
      if Explicit(left) then TextCollation(cols, left)
      else if Explicit(right) then TextCollation(cols, right) else None
    case AndText(left, right) =>
      if Explicit(left) then TextCollation(cols, left)
      else if Explicit(right) then TextCollation(cols, right) else None
    case IsText(left, _, right) =>
      if Explicit(left) then TextCollation(cols, left)
      else if Explicit(right) then TextCollation(cols, right) else None
    case InText(left, _, _) => if Explicit(left) then TextCollation(cols, left) else ItemCollation(cols, s, 0)
    case CaseText(base, _, _) =>
      if base.Some? && Explicit(base.value) then TextCollation(cols, base.value) else ArmCollation(cols, s, 0)
    case _ => None
  }

  function ItemCollation(cols: Columns, s: Surface, i: nat): Collation
    requires s.InText? && i <= |s.items|
    decreases s, 0, |s.items| - i
  {
    if i == |s.items| then None
    else if Explicit(s.items[i]) then TextCollation(cols, s.items[i])
    else ItemCollation(cols, s, i + 1)
  }

  function ArmCollation(cols: Columns, s: Surface, k: nat): Collation
    requires s.CaseText? && k <= |s.arms|
    decreases s, 0, |s.arms| - k
  {
    if k < |s.arms| then
      if Explicit(s.arms[k].0) then TextCollation(cols, s.arms[k].0)
      else if Explicit(s.arms[k].1) then TextCollation(cols, s.arms[k].1)
      else ArmCollation(cols, s, k + 1)
    else if s.other.Some? && Explicit(s.other.value) then TextCollation(cols, s.other.value)
    else None
  }

  function ComparedBy(cols: Columns, left: Surface, right: Surface): Collation {
    var own := TextCollation(cols, left);
    if !Explicit(left) && (Explicit(right) || own.None?) then TextCollation(cols, right) else own
  }

  function TextRule(cols: Columns, left: Surface, right: Surface): Rule {
    Rule(CompareAffinity(TextAffinityOf(cols, left), TextAffinityOf(cols, right)), ComparedBy(cols, left, right))
  }

  function TextInRule(cols: Columns, left: Surface): Rule {
    Rule(CompareAffinity(TextAffinityOf(cols, left), NoAffinity), TextCollation(cols, left))
  }

  /** What a text says. */
  function Meaning(env: Env, s: Surface): Value
    decreases s, 1, 0
  {
    match s
    case Atom(id) => env.value(id)
    case AliasName(id) => env.value(id)
    case IntegerWord(n) => Int(n)
    case NullWord => Null
    case Group(inner) => Meaning(env, inner)
    case CollateText(inner, _) => Meaning(env, inner)
    case LikelyText(inner) => Meaning(env, inner)
    case Applied(op, inner) =>
      var v := Meaning(env, inner);
      (match op
       case Not => NotOf(env, v)
       case IsNull => Bool(v == Null)
       case NotNull => Bool(v != Null)
       case UPlus => v
       case UMinus => MinusOf(env, v))
    case Compared(left, neg, right) =>
      Negated(neg, EqOf(env, TextRule(env.columns, left, right), Meaning(env, left), Meaning(env, right)))
    case AndText(left, right) => AndOf(env, Meaning(env, left), Meaning(env, right))
    case IsText(left, neg, right) =>
      Negated(neg, IsOf(env, TextRule(env.columns, left, right), Meaning(env, left), Meaning(env, right)))
    case InText(left, neg, items) =>
      Negated(neg, InOf(env, TextInRule(env.columns, left), Meaning(env, left),
                        seq(|items|, i requires 0 <= i < |items| => Meaning(env, items[i]))))
    case CaseText(_, _, _) => CaseMeaning(env, s, 0)
  }

  /** The first true arm from the k-th on decides.  With a base, an arm is true if the base is equal to its WHEN. */
  function CaseMeaning(env: Env, s: Surface, k: nat): Value
    requires s.CaseText? && k <= |s.arms|
    decreases s, 0, |s.arms| - k
  {
    if k < |s.arms| then
      if Holds(env, ArmTest(env, s, k)) then Meaning(env, s.arms[k].1) else CaseMeaning(env, s, k + 1)
    else
      match s.other
      case Some(other) => Meaning(env, other)
      case None => Null
  }

  function ArmTest(env: Env, s: Surface, k: nat): Value
    requires s.CaseText? && k < |s.arms|
    decreases s, 0, 0
  {
    var w := Meaning(env, s.arms[k].0);
    match s.base
    case None => w
    case Some(base) => EqOf(env, TextRule(env.columns, base, s.arms[k].0), Meaning(env, base), w)
  }

  // ----- Which COLLATE operators the actions throw away -----

  /** The value of a text that the actions turn into a constant integer. */
  function TextInteger(s: Surface): Option<int> {
    match s
    case IntegerWord(n) => Some(n)
    case Group(inner) => TextInteger(inner)
    case Applied(UPlus, inner) => TextInteger(inner)
    case Applied(UMinus, inner) =>
      var v := TextInteger(inner);
      if v.Some? then Some(-v.value) else None
    case AndText(left, right) => if TextInteger(left) == Some(0) || TextInteger(right) == Some(0) then Some(0) else None
    case InText(_, neg, items) => if |items| == 0 then Some(if neg then 1 else 0) else None
    case _ => None
  }

  lemma {:induction false} BuildInteger(s: Surface)
    ensures IntegerOf(Build(s)) == TextInteger(s)
  {
    match s {
      case Group(inner) => BuildInteger(inner);
      case Applied(_, inner) => BuildInteger(inner);
      case AndText(left, right) =>
        BuildInteger(left);
        BuildInteger(right);
      case _ =>
    }
  }

  /** The text without what the actions forget of its COLLATE operators: all in the left-hand side of IN () and in
      an AND with a constant 0, and all in the item of IN (x). */
  function Remains(s: Surface): Surface {
    match s
    case Group(inner) => Group(Remains(inner))
    case LikelyText(inner) => LikelyText(Remains(inner))
    case Applied(op, inner) => Applied(op, Remains(inner))
    case Compared(left, neg, right) => Compared(Remains(left), neg, Remains(right))
    case AndText(left, right) =>
      if TextInteger(s) == Some(0) then IntegerWord(0) else AndText(Remains(left), Remains(right))
    case IsText(left, neg, right) => IsText(Remains(left), neg, Remains(right))
    case InText(left, neg, items) =>
      if |items| == 0 then IntegerWord(if neg then 1 else 0)
      else if |items| == 1 then InText(Remains(left), neg, [])
      else InText(Remains(left), neg, seq(|items|, i requires 0 <= i < |items| => Remains(items[i])))
    case CaseText(base, arms, other) =>
      CaseText(if base.Some? then Some(Remains(base.value)) else None,
               seq(|arms|, k requires 0 <= k < |arms| => (Remains(arms[k].0), Remains(arms[k].1))),
               if other.Some? then Some(Remains(other.value)) else None)
    case _ => s
  }

  // ----- The trees have the affinity that the texts say, and the collation that remains -----

  lemma {:induction false} BuildAffinity(cols: Columns, s: Surface)
    ensures AffinityOf(cols, Build(s)) == TextAffinityOf(cols, s)
    ensures !Build(s).flags.generic
    ensures Skips(Build(s)) <==> Ungrouped(s).CollateText? || Ungrouped(s).LikelyText?
    ensures Build(s).Alias? <==> Ungrouped(s).AliasName?
    ensures Build(s).Alias? ==> Build(s).id == Ungrouped(s).id
  {
    match s {
      case Group(inner) => BuildAffinity(cols, inner);
      case CollateText(inner, _) => BuildAffinity(cols, inner);
      case LikelyText(inner) => BuildAffinity(cols, inner);
      case _ =>
    }
  }

  /** The tree says of collation what remains of the text says. */
  ghost predicate Collates(cols: Columns, s: Surface) {
    && Build(s).flags == Flags(Explicit(Remains(s)), false)
    && CollationOf(cols, Build(s)) == TextCollation(cols, Remains(s))
  }

  function FoundCollation(cols: Columns, list: seq<Expr>, i: nat): Collation
    requires i <= |list|
  {
    var k := FirstCollate(list, i);
    if k < |list| then CollationOf(cols, list[k]) else None
  }

  function BuildAll(items: seq<Surface>): seq<Expr> {
    seq(|items|, i requires 0 <= i < |items| => Build(items[i]))
  }

  lemma {:induction false} ItemsCollate(cols: Columns, s: Surface, i: nat)
    requires s.InText? && |s.items| >= 2 && i <= |s.items|
    requires forall k :: 0 <= k < |s.items| ==> Collates(cols, s.items[k])
    ensures FoundCollation(cols, BuildAll(s.items), i) == ItemCollation(cols, Remains(s), i)
    decreases |s.items| - i
  {
    if i < |s.items| {
      assert Collates(cols, s.items[i]);
      ItemsCollate(cols, s, i + 1);
    }
  }

  lemma {:induction false} ItemsExplicit(cols: Columns, s: Surface)
    requires s.InText? && forall k :: 0 <= k < |s.items| ==> Collates(cols, s.items[k])
    ensures SomeCollate(BuildAll(s.items)) <==> exists k :: 0 <= k < |s.items| && Explicit(Remains(s.items[k]))
  {
    forall k | 0 <= k < |s.items| ensures BuildAll(s.items)[k].flags.collate == Explicit(Remains(s.items[k])) {
      assert Collates(cols, s.items[k]);
    }
  }

  lemma {:induction false} LongInExplicit(s: Surface)
    requires s.InText? && |s.items| >= 2
    ensures Explicit(Remains(s)) <==>
            Explicit(Remains(s.left)) || exists k :: 0 <= k < |s.items| && Explicit(Remains(s.items[k]))
  {
    var r := Remains(s);
    assert r.InText? && r.left == Remains(s.left) && |r.items| == |s.items|;
    if k :| 0 <= k < |s.items| && Explicit(Remains(s.items[k])) {
      assert r.items[k] == Remains(s.items[k]);
    }
  }

  /** IN says of collation what its left-hand side says, or the first item that has a COLLATE operator. */
  lemma {:induction false} InListSays(cols: Columns, left: Expr, neg: bool, list: seq<Expr>)
    requires |list| >= 2
    ensures var e := InAction(left, neg, list);
      && e.flags == FlagsFrom(left.flags.collate || SomeCollate(list))
      && CollationOf(cols, e) == if left.flags.collate then CollationOf(cols, left) else FoundCollation(cols, list, 0)
  {
    if !SomeCollate(list) {
      NothingFound(cols, list, 0);
    }
  }

  lemma {:induction false} LongInCollates(cols: Columns, s: Surface)
    requires s.InText? && |s.items| >= 2 && Collates(cols, s.left)
    requires forall k :: 0 <= k < |s.items| ==> Collates(cols, s.items[k])
    ensures Collates(cols, s)
  {
    hide CollationOf, FoundCollation, ItemCollation, SomeCollate;
    LongInExplicit(s);
    ItemsExplicit(cols, s);
    ItemsCollate(cols, s, 0);
    InListSays(cols, Build(s.left), s.neg, BuildAll(s.items));
    assert Build(s) == InAction(Build(s.left), s.neg, BuildAll(s.items));
  }

  lemma {:induction false} NothingFound(cols: Columns, list: seq<Expr>, i: nat)
    requires i <= |list| && !SomeCollate(list)
    ensures FoundCollation(cols, list, i) == None
    decreases |list| - i
  {
    if i < |list| {
      NothingFound(cols, list, i + 1);
    }
  }

  function BuildArms(arms: seq<(Surface, Surface)>): seq<(Expr, Expr)> {
    seq(|arms|, i requires 0 <= i < |arms| => (Build(arms[i].0), Build(arms[i].1)))
  }

  function BuildOther(other: Option<Surface>): Option<Expr> {
    if other.Some? then Some(Build(other.value)) else None
  }

  lemma {:induction false} BuildCase(s: Surface)
    requires s.CaseText?
    ensures Build(s) == CaseAction(BuildOther(s.base), BuildArms(s.arms), BuildOther(s.other))
  {
  }

  ghost predicate ArmCollates(cols: Columns, arm: (Surface, Surface)) {
    Collates(cols, arm.0) && Collates(cols, arm.1)
  }

  ghost predicate PartsCollate(cols: Columns, s: Surface)
    requires s.CaseText?
  {
    && (s.base.Some? ==> Collates(cols, s.base.value))
    && (forall k :: 0 <= k < |s.arms| ==> ArmCollates(cols, s.arms[k]))
    && (s.other.Some? ==> Collates(cols, s.other.value))
  }

  lemma {:induction false} ArmsCollate(cols: Columns, s: Surface, list: seq<Expr>, k: nat)
    requires s.CaseText? && k <= |s.arms| && PartsCollate(cols, s)
    requires list == CaseItems(BuildArms(s.arms), BuildOther(s.other))
    ensures 2 * k <= |list| && FoundCollation(cols, list, 2 * k) == ArmCollation(cols, Remains(s), k)
    decreases |s.arms| - k
  {
    hide Build, CollationOf, TextCollation, Explicit;
    CaseItemsDecode(BuildArms(s.arms), BuildOther(s.other));
    if k < |s.arms| {
      assert ArmCollates(cols, s.arms[k]);
      assert (list[2*k], list[2*k+1]) == BuildArms(s.arms)[k];
      ArmsCollate(cols, s, list, k + 1);
      FoundTwoFurther(cols, list, 2 * k);
    } else {
      FoundAtEnd(cols, list, 2 * k);
    }
  }

  lemma {:induction false} FoundTwoFurther(cols: Columns, list: seq<Expr>, i: nat)
    requires i + 1 < |list|
    ensures FoundCollation(cols, list, i)
            == if list[i].flags.collate then CollationOf(cols, list[i])
               else if list[i+1].flags.collate then CollationOf(cols, list[i+1])
               else FoundCollation(cols, list, i + 2)
  {
    assert FirstCollate(list, i + 1) == if list[i+1].flags.collate then i + 1 else FirstCollate(list, i + 2);
  }

  lemma {:induction false} FoundAtEnd(cols: Columns, list: seq<Expr>, i: nat)
    requires i <= |list| <= i + 1
    ensures FoundCollation(cols, list, i)
            == if i < |list| && list[i].flags.collate then CollationOf(cols, list[i]) else None
  {
    assert FirstCollate(list, |list|) == |list|;
  }

  lemma {:induction false} ArmsExplicit(cols: Columns, s: Surface, list: seq<Expr>)
    requires s.CaseText? && PartsCollate(cols, s)
    requires list == CaseItems(BuildArms(s.arms), BuildOther(s.other))
    ensures SomeCollate(list) <==>
      || (exists k :: 0 <= k < |s.arms| && (Explicit(Remains(s.arms[k].0)) || Explicit(Remains(s.arms[k].1))))
      || (s.other.Some? && Explicit(Remains(s.other.value)))
  {
    hide Build, CollationOf, TextCollation, Explicit;
    CaseItemsDecode(BuildArms(s.arms), BuildOther(s.other));
    forall k | 0 <= k < |s.arms|
      ensures list[2*k].flags.collate == Explicit(Remains(s.arms[k].0))
      ensures list[2*k+1].flags.collate == Explicit(Remains(s.arms[k].1))
    {
      assert ArmCollates(cols, s.arms[k]);
      assert (list[2*k], list[2*k+1]) == BuildArms(s.arms)[k];
    }
    if i :| 0 <= i < |list| && list[i].flags.collate {
      var k := i / 2;
      assert k < |s.arms| ==>
        (i == 2 * k || i == 2 * k + 1) && (Explicit(Remains(s.arms[k].0)) || Explicit(Remains(s.arms[k].1)));
      assert k >= |s.arms| ==> i == |list| - 1 && s.other.Some? && Explicit(Remains(s.other.value));
    }
    if k :| 0 <= k < |s.arms| && (Explicit(Remains(s.arms[k].0)) || Explicit(Remains(s.arms[k].1))) {
      assert list[2*k].flags.collate || list[2*k+1].flags.collate;
    }
    if s.other.Some? && Explicit(Remains(s.other.value)) {
      assert list[|list|-1].flags.collate;
    }
  }

  lemma {:induction false} CaseExplicit(s: Surface)
    requires s.CaseText?
    ensures Explicit(Remains(s)) <==>
      || (s.base.Some? && Explicit(Remains(s.base.value)))
      || (exists k :: 0 <= k < |s.arms| && (Explicit(Remains(s.arms[k].0)) || Explicit(Remains(s.arms[k].1))))
      || (s.other.Some? && Explicit(Remains(s.other.value)))
  {
    var r := Remains(s);
    assert |r.arms| == |s.arms|;
    if k :| 0 <= k < |s.arms| && (Explicit(Remains(s.arms[k].0)) || Explicit(Remains(s.arms[k].1))) {
      assert r.arms[k] == (Remains(s.arms[k].0), Remains(s.arms[k].1));
    }
  }

  lemma {:induction false} CaseListSays(cols: Columns, base: Option<Expr>, list: seq<Expr>)
    ensures var e := CaseList(base, list, FlagsFrom((base.Some? && base.value.flags.collate) || SomeCollate(list)));
      CollationOf(cols, e) == if base.Some? && base.value.flags.collate then CollationOf(cols, base.value)
                              else FoundCollation(cols, list, 0)
  {
    if !SomeCollate(list) {
      NothingFound(cols, list, 0);
    }
  }

  lemma {:induction false} CaseCollates(cols: Columns, s: Surface)
    requires s.CaseText? && PartsCollate(cols, s)
    ensures Collates(cols, s)
  {
    hide CollationOf, FoundCollation, ArmCollation, SomeCollate, CaseItems;
    var list := CaseItems(BuildArms(s.arms), BuildOther(s.other));
    BuildCase(s);
    CaseExplicit(s);
    ArmsExplicit(cols, s, list);
    ArmsCollate(cols, s, list, 0);
    CaseListSays(cols, BuildOther(s.base), list);
  }

  lemma {:induction false} ShortInCollates(cols: Columns, s: Surface)
    requires s.InText? && |s.items| <= 1
    requires |s.items| == 1 ==> Collates(cols, s.left)
    ensures Collates(cols, s)
  {
    if |s.items| == 1 {
      assert ItemCollation(cols, Remains(s), 0) == None;
    }
  }

  lemma {:induction false} PairCollates(cols: Columns, op: BinaryOp, left: Surface, right: Surface)
    requires Collates(cols, left) && Collates(cols, right)
    ensures var e, l, r := MakeBinary(op, Build(left), Build(right)), Remains(left), Remains(right);
      && e.flags == Flags(Explicit(l) || Explicit(r), false)
      && CollationOf(cols, e) == if Explicit(l) then TextCollation(cols, l)
                                 else if Explicit(r) then TextCollation(cols, r) else None
  {
  }

  lemma {:induction false} ComparedCollates(cols: Columns, s: Surface)
    requires s.Compared? && Collates(cols, s.left) && Collates(cols, s.right)
    ensures Collates(cols, s)
  {
    PairCollates(cols, if s.neg then Ne else Eq, s.left, s.right);
  }

  lemma {:induction false} IsCollates(cols: Columns, s: Surface)
    requires s.IsText? && Collates(cols, s.left) && Collates(cols, s.right)
    ensures Collates(cols, s)
  {
    PairCollates(cols, Is, s.left, s.right);
    PairCollates(cols, IsNot, s.left, s.right);
    if Build(s.right).NullLiteral? {
      NullIsBare(s.right);
    }
  }

  lemma {:induction false} NullIsBare(s: Surface)
    requires Build(s).NullLiteral?
    ensures !Explicit(Remains(s))
  {
    if s.Group? {
      NullIsBare(s.inner);
    }
  }

  lemma {:induction false} AndCollates(cols: Columns, s: Surface)
    requires s.AndText?
    requires TextInteger(s) != Some(0) ==> Collates(cols, s.left) && Collates(cols, s.right)
    ensures Collates(cols, s)
  {
    BuildInteger(s.left);
    BuildInteger(s.right);
    if TextInteger(s) != Some(0) {
      PairCollates(cols, And, s.left, s.right);
    }
  }

  lemma {:induction false} WrappedCollates(cols: Columns, s: Surface)
    requires s.Group? || s.LikelyText? || s.Applied?
    requires Collates(cols, s.inner)
    ensures Collates(cols, s)
  {
  }

  lemma {:induction false} WordCollates(cols: Columns, s: Surface)
    requires s.Atom? || s.AliasName? || s.IntegerWord? || s.NullWord? || s.CollateText?
    ensures Collates(cols, s)
  {
  }

  /** Every tree says of collation what remains of its text. */
  lemma {:induction false} BuildCollates(cols: Columns, s: Surface)
    ensures Collates(cols, s)
  {
    hide Collates;
    match s {
      case Group(inner) =>
        BuildCollates(cols, inner);
        WrappedCollates(cols, s);
      case LikelyText(inner) =>
        BuildCollates(cols, inner);
        WrappedCollates(cols, s);
      case Applied(_, inner) =>
        BuildCollates(cols, inner);
        WrappedCollates(cols, s);
      case Compared(left, neg, right) =>
        BuildCollates(cols, left);
        BuildCollates(cols, right);
        ComparedCollates(cols, s);
      case AndText(left, right) =>
        BuildCollates(cols, left);
        BuildCollates(cols, right);
        AndCollates(cols, s);
      case IsText(left, _, right) =>
        BuildCollates(cols, left);
        BuildCollates(cols, right);
        IsCollates(cols, s);
      case InText(left, _, items) =>
        BuildCollates(cols, left);
        if |items| >= 2 {
          forall i | 0 <= i < |items| ensures Collates(cols, items[i]) {
            BuildCollates(cols, items[i]);
          }
          LongInCollates(cols, s);
        } else {
          ShortInCollates(cols, s);
        }
      case CaseText(base, arms, other) =>
        if base.Some? {
          BuildCollates(cols, base.value);
        }
        if other.Some? {
          BuildCollates(cols, other.value);
        }
        forall k | 0 <= k < |arms| ensures ArmCollates(cols, arms[k]) {
          BuildCollates(cols, arms[k].0);
          BuildCollates(cols, arms[k].1);
        }
        CaseCollates(cols, s);
      case _ => WordCollates(cols, s);
    }
  }
}
