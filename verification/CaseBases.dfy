/** When CASE with a base compares as = does.

    The comment in the code generator promises that CASE x WHEN e is CASE WHEN x = e.  But the base is put in a register
    first, and that hides the affinity of a column below a COLLATE, and the collation of one below a plus.
 */
module CaseBases {
  import opened ExprTrees
  import opened ExprRewrites
  import opened ExprTexts
  import opened TextMeanings

  /** The column that a text is, below COLLATE operators and likely(). */
  function ColumnOf(s: Surface): Option<nat> {
    match s
    case Atom(id) => Some(id)
    case AliasName(id) => Some(id)
    case Group(inner) => ColumnOf(inner)
    case CollateText(inner, _) => ColumnOf(inner)
    case LikelyText(inner) => ColumnOf(inner)
    case _ => None
  }

  /** Below a plus as well. */
  function ColumnUnder(s: Surface): Option<nat> {
    match s
    case Atom(id) => Some(id)
    case AliasName(id) => Some(id)
    case Group(inner) => ColumnUnder(inner)
    case CollateText(inner, _) => ColumnUnder(inner)
    case LikelyText(inner) => ColumnUnder(inner)
    case Applied(UPlus, inner) => ColumnUnder(inner)
    case _ => None
  }

  lemma {:induction false} ColumnIsUnder(s: Surface)
    requires ColumnOf(s).Some?
    ensures ColumnUnder(s) == ColumnOf(s)
  {
    if s.Group? || s.CollateText? || s.LikelyText? {
      ColumnIsUnder(s.inner);
    }
  }

  lemma {:induction false} ColumnRight(env: Env, s: Surface)
    requires ColumnUnder(s).Some?
    ensures Right(env, s) && Meaning(env, s) == env.value(ColumnUnder(s).value)
  {
    if !s.Atom? && !s.AliasName? {
      ColumnRight(env, s.inner);
      WrappedRight(env, s);
    }
  }

  lemma {:induction false} ColumnAffinity(cols: Columns, s: Surface)
    requires ColumnUnder(s).Some?
    ensures TextAffinityOf(cols, s) == NoAffinity || TextAffinityOf(cols, s) == cols.affinity(ColumnUnder(s).value)
    ensures ColumnOf(s).Some? ==> TextAffinityOf(cols, s) == cols.affinity(ColumnUnder(s).value)
  {
    if !s.Atom? && !s.AliasName? {
      ColumnAffinity(cols, s.inner);
    }
  }

  /** CASE base WHEN when THEN 1 ELSE 0 END */
  function CaseOf(base: Surface, when: Surface): Surface {
    CaseText(Some(base), [(when, IntegerWord(1))], Some(IntegerWord(0)))
  }

  lemma EqHolds(env: Env, rule: Rule, v: Value, w: Value)
    ensures Holds(env, EqOf(env, rule, v, w)) <==> EqOf(env, rule, v, w) == Int(1)
  {
  }

  lemma {:induction false} CaseOfMeans(env: Env, base: Surface, when: Surface)
    ensures Meaning(env, CaseOf(base, when))
            == Bool(EqOf(env, TextRule(env.columns, base, when), Meaning(env, base), Meaning(env, when)) == Int(1))
  {
    hide EqOf, TextRule, Holds;
    var s := CaseOf(base, when);
    assert CaseMeaning(env, s, 1) == Meaning(env, IntegerWord(0)) == Int(0);
    assert Meaning(env, s.arms[0].1) == Int(1);
    EqHolds(env, TextRule(env.columns, base, when), Meaning(env, base), Meaning(env, when));
    assert CaseMeaning(env, s, 0) == if Holds(env, ArmTest(env, s, 0)) then Int(1) else Int(0);
  }

  lemma {:induction false} CaseOfTree(base: Surface, when: Surface)
    ensures Build(CaseOf(base, when)).CaseList?
    ensures Build(CaseOf(base, when)).base == Some(Build(base))
    ensures Build(CaseOf(base, when)).list == [Build(when), Number(1, NOFLAGS), Number(0, NOFLAGS)]
  {
    var s := CaseOf(base, when);
    BuildCase(s);
    CaseItemsDecode(BuildArms(s.arms), BuildOther(s.other));
  }

  lemma {:induction false} CaseOfGives(env: Env, base: Surface, when: Surface)
    requires Right(env, base) && Right(env, when)
    ensures Evaluate(env, Build(CaseOf(base, when)))
            == Bool(EqOf(env, UsedCaseRule(env.columns, base, when), Meaning(env, base), Meaning(env, when)) == Int(1))
  {
    hide EqOf, UsedCaseRule, CaseRule, Holds, Build, Meaning;
    var e := Build(CaseOf(base, when));
    CaseOfTree(base, when);
    BuildCaseRule(env.columns, base, when);
    assert EvaluateCase(env, e, 2) == Int(0);
    EqHolds(env, UsedCaseRule(env.columns, base, when), Meaning(env, base), Meaning(env, when));
    assert EvaluateCase(env, e, 0) == if Holds(env, CaseTest(env, e, 0)) then Int(1) else Int(0);
  }

  /** So the CASE is right if and only if its comparison is that of =. */
  lemma {:induction false} CaseOfRight(env: Env, base: Surface, when: Surface)
    requires Right(env, base) && Right(env, when)
    ensures Right(env, CaseOf(base, when)) <==>
            (EqOf(env, UsedCaseRule(env.columns, base, when), Meaning(env, base), Meaning(env, when)) == Int(1)
             <==> EqOf(env, TextRule(env.columns, base, when), Meaning(env, base), Meaning(env, when)) == Int(1))
  {
    hide Build, Evaluate, Meaning, EqOf;
    CaseOfMeans(env, base, when);
    CaseOfGives(env, base, when);
  }

  /** Values for which it matters whether the affinity of the base is known. */
  lemma {:induction false} TellingWithout(env: Env, c: Collation, a: Affinity, b: Affinity)
    requires Overrides(b, a) && forall k, s, t :: env.collates(k, s, t) == (s == t)
    ensures var (w, v) := Telling(b, a);
      && CanStore(a, v) && CanStore(b, w) && v != Null && w != Null
      && EqOf(env, Rule(CompareAffinity(NoAffinity, b), c), v, w) != EqOf(env, Rule(CompareAffinity(a, b), c), v, w)
  {
    TextsOfOne();
  }

  lemma {:induction false} HiddenAffinityChanges(cols: Columns, base: Surface, when: Surface) returns (env: Env)
    requires ColumnUnder(base).Some? && ColumnOf(when).Some?
    requires Covered(base) && Overrides(TextAffinityOf(cols, when), TextAffinityOf(cols, base))
    requires CaseComparedBy(cols, base, when) == ComparedBy(cols, base, when)
    ensures Stores(env) && env.columns == cols && !Right(env, CaseOf(base, when))
  {
    hide Build, Evaluate, Meaning, EqOf, CaseComparedBy, ComparedBy;
    var a, b := TextAffinityOf(cols, base), TextAffinityOf(cols, when);
    var (w, v) := Telling(b, a);
    ColumnIsUnder(when);
    ColumnAffinity(cols, base);
    ColumnAffinity(cols, when);
    env := EnvWith(cols, ColumnUnder(base).value, v, ColumnUnder(when).value, w, (_, s, t) => s == t);
    TellingWithout(env, ComparedBy(cols, base, when), a, b);
    ColumnRight(env, base);
    ColumnRight(env, when);
    EqualsOrNot(env, UsedCaseRule(cols, base, when), v, w);
    EqualsOrNot(env, TextRule(cols, base, when), v, w);
    CaseOfRight(env, base, when);
  }

  lemma EqualsOrNot(env: Env, rule: Rule, v: Value, w: Value)
    requires v != Null && w != Null
    ensures EqOf(env, rule, v, w) == Int(0) || EqOf(env, rule, v, w) == Int(1)
  {
  }

  /** Takes the texts of two columns for equal by one collation and not by another. */
  function Apart(c: Collation, same: bool): (nat, string, string) -> bool {
    (k, s, t) => if c.None? || c.value == k then !same else s == t
  }

  lemma {:induction false} HiddenCollationChanges(cols: Columns, base: Surface, when: Surface) returns (env: Env)
    requires ColumnUnder(base).Some? && ColumnOf(when).Some?
    requires CaseComparedBy(cols, base, when) != ComparedBy(cols, base, when)
    ensures Stores(env) && env.columns == cols && !Right(env, CaseOf(base, when))
  {
    hide Build, Evaluate, Meaning, CaseComparedBy, ComparedBy, TextAffinityOf;
    var i, j := ColumnUnder(base).value, ColumnOf(when).value;
    ColumnIsUnder(when);
    env := EnvWith(cols, i, Text("a"), j, Text("b"), Apart(ComparedBy(cols, base, when), i == j));
    WordsAreNoNumbers();
    ColumnRight(env, base);
    ColumnRight(env, when);
    CaseOfRight(env, base, when);
  }

  /** For a column as WHEN, and a column as base below COLLATE operators, likely() and plus signs: CASE compares as =
      does, for all values that the columns can hold and whatever texts the collations take for equal, if and only if no
      COLLATE or likely() hides an affinity that matters and no plus a collation that differs. */
  lemma {:induction false} CaseKeptExactly(cols: Columns, base: Surface, when: Surface)
    requires ColumnUnder(base).Some? && ColumnOf(when).Some?
    ensures (forall env | Stores(env) && env.columns == cols :: Right(env, CaseOf(base, when)))
            <==> CaseKept(cols, base, when)
  {
    if CaseComparedBy(cols, base, when) != ComparedBy(cols, base, when) {
      var env := HiddenCollationChanges(cols, base, when);
    } else if !CaseKept(cols, base, when) {
      var env := HiddenAffinityChanges(cols, base, when);
    } else {
      forall env | Stores(env) && env.columns == cols ensures Right(env, CaseOf(base, when)) {
        CaseOfKept(env, base, when);
      }
    }
  }

  lemma {:induction false} CaseOfKept(env: Env, base: Surface, when: Surface)
    requires Stores(env) && ColumnUnder(base).Some? && ColumnOf(when).Some? && CaseKept(env.columns, base, when)
    ensures Right(env, CaseOf(base, when))
  {
    hide Build, Evaluate, Meaning, EqOf, CanStore, TextAffinityOf, CaseComparedBy, ComparedBy, Overrides;
    var cols := env.columns;
    ColumnIsUnder(when);
    ColumnRight(env, base);
    ColumnRight(env, when);
    TextFits(env, base);
    TextFits(env, when);
    if Covered(base) {
      SameAsWithout(env, ComparedBy(cols, base, when), TextAffinityOf(cols, base), TextAffinityOf(cols, when),
                    Meaning(env, base), Meaning(env, when));
    }
    CaseOfRight(env, base, when);
  }

  // ----- A constant as WHEN -----

  lemma {:induction false} IntegerHasNoAffinity(cols: Columns, s: Surface)
    requires TextInteger(s).Some?
    ensures TextAffinityOf(cols, s) == NoAffinity
  {
    if s.Group? {
      IntegerHasNoAffinity(cols, s.inner);
    }
  }

  /** Only texts are compared by a collation, and only a TEXT column is compared to an integer as text. */
  lemma {:induction false} IntegerCompared(env: Env, a: Affinity, v: Value, n: int, c: Collation)
    requires CanStore(a, v) && a != TextAffinity
    ensures v != Null ==> EqOf(env, Rule(CompareAffinity(a, NoAffinity), c), v, Int(n)) == Bool(v == Int(n))
    ensures v != Null ==> EqOf(env, Rule(CompareAffinity(NoAffinity, NoAffinity), c), v, Int(n)) == Bool(v == Int(n))
    ensures v == Null ==> forall rule :: EqOf(env, rule, v, Int(n)) == Null
  {
  }

  lemma {:induction false} HiddenTextChanges(cols: Columns, base: Surface, when: Surface) returns (env: Env)
    requires ColumnUnder(base).Some? && TextInteger(when).Some?
    requires TextAffinityOf(cols, base) == TextAffinity
    requires Covered(base) || CaseComparedBy(cols, base, when) != ComparedBy(cols, base, when)
    ensures Stores(env) && env.columns == cols && !Right(env, CaseOf(base, when))
  {
    hide Build, Evaluate, Meaning, CaseComparedBy, ComparedBy, TextAffinityOf, IntText;
    var i, s, c := ColumnUnder(base).value, IntText(TextInteger(when).value), ComparedBy(cols, base, when);
    env := EnvWith(cols, i, Text(s), i, Null, if Covered(base) then (_, s, t) => s == t else Apart(c, true));
    ColumnAffinity(cols, base);
    IntegerHasNoAffinity(cols, when);
    ColumnRight(env, base);
    IntegerRight(env, when);
    CaseOfRight(env, base, when);
  }

  /** The same for a WHEN that is a constant integer: the base must not be a TEXT column below COLLATE or likely(), nor
      one that is compared by a collation other than the text says. */
  lemma {:induction false} CaseIntegerKeptExactly(cols: Columns, base: Surface, when: Surface)
    requires ColumnUnder(base).Some? && TextInteger(when).Some?
    ensures (forall env | Stores(env) && env.columns == cols :: Right(env, CaseOf(base, when)))
            <==> !(TextAffinityOf(cols, base) == TextAffinity
                   && (Covered(base) || CaseComparedBy(cols, base, when) != ComparedBy(cols, base, when)))
  {
    if TextAffinityOf(cols, base) == TextAffinity
       && (Covered(base) || CaseComparedBy(cols, base, when) != ComparedBy(cols, base, when)) {
      var env := HiddenTextChanges(cols, base, when);
    } else {
      forall env | Stores(env) && env.columns == cols ensures Right(env, CaseOf(base, when)) {
        CaseOfInteger(env, base, when);
      }
    }
  }

  lemma {:induction false} CaseOfInteger(env: Env, base: Surface, when: Surface)
    requires Stores(env) && ColumnUnder(base).Some? && TextInteger(when).Some?
    requires TextAffinityOf(env.columns, base) == TextAffinity ==>
      !Covered(base) && CaseComparedBy(env.columns, base, when) == ComparedBy(env.columns, base, when)
    ensures Right(env, CaseOf(base, when))
  {
    hide Build, Evaluate, Meaning, EqOf, CanStore, TextAffinityOf, CaseComparedBy, ComparedBy;
    var cols, n, v := env.columns, TextInteger(when).value, Meaning(env, base);
    ColumnRight(env, base);
    IntegerRight(env, when);
    IntegerHasNoAffinity(cols, when);
    TextFits(env, base);
    CaseOfRight(env, base, when);
    if TextAffinityOf(cols, base) != TextAffinity {
      IntegerCompared(env, TextAffinityOf(cols, base), v, n, CaseComparedBy(cols, base, when));
      IntegerCompared(env, TextAffinityOf(cols, base), v, n, ComparedBy(cols, base, when));
    }
  }

  // ----- Values that go wrong -----

  /** CASE b COLLATE c WHEN 1 THEN 1 ELSE 0 END for a TEXT column b that holds 1: it should be 1 and is 0, while
      CASE WHEN b COLLATE c = 1 THEN 1 ELSE 0 END is 1. */
  lemma {:induction false} CoveredBaseChanges(b: nat, c: nat) returns (env: Env)
    ensures Stores(env) && env.columns.affinity(b) == TextAffinity && env.value(b) == Text("1")
    ensures var base, when := CollateText(Atom(b), c), IntegerWord(1);
      && Meaning(env, CaseOf(base, when)) == Int(1)
      && Evaluate(env, Build(CaseOf(base, when))) == Int(0)
      && Evaluate(env, Build(FormB(base, [(when, IntegerWord(1))], Some(IntegerWord(0))))) == Int(1)
  {
    hide Build, Evaluate, Meaning;
    var cols := Columns(id => if id == b then TextAffinity else Blob, _ => Some(0));
    var base, when := CollateText(Atom(b), c), IntegerWord(1);
    env := EnvWith(cols, b, Text("1"), b, Null, (_, s, t) => s == t);
    assert TextAffinityOf(cols, Atom(b)) == TextAffinity && TextAffinityOf(cols, when) == NoAffinity;
    assert Explicit(base) && TextCollation(cols, base) == Some(c);
    assert TextRule(cols, base, when) == Rule(TextAffinity, Some(c));
    assert UsedCaseRule(cols, base, when) == Rule(Blob, Some(c));
    TextsOfOne();
    ColumnRight(env, base);
    IntegerRight(env, when);
    CaseOfMeans(env, base, when);
    CaseOfGives(env, base, when);
    FormBIsRight(env, base, when);
  }

  lemma {:induction false} FormBIsRight(env: Env, base: Surface, when: Surface)
    requires Stores(env) && Faithful(env.columns, base) && Faithful(env.columns, when)
    requires ComparedBy(env.columns, Remains(base), Remains(when)) == ComparedBy(env.columns, base, when)
    ensures Evaluate(env, Build(FormB(base, [(when, IntegerWord(1))], Some(IntegerWord(0)))))
            == Meaning(env, CaseOf(base, when))
  {
    hide Build, Evaluate, Meaning, ComparedBy, Stores;
    var arms := [(when, IntegerWord(1))];
    var s := FormB(base, arms, Some(IntegerWord(0)));
    assert s.arms == [(Compared(base, false, when), IntegerWord(1))];
    assert FaithfulArm(env.columns, s.arms[0]);
    assert Faithful(env.columns, s);
    BuildKeepsMeaning(env, s);
    FormsAgree(env, base, arms, Some(IntegerWord(0)));
  }

  /** CASE +b WHEN d THEN 1 ELSE 0 END for two columns with collations of their own: it should be by that of b and is by
      that of d, which takes a and b for equal. */
  lemma {:induction false} PlusChanges(b: nat, d: nat) returns (env: Env)
    requires b != d
    ensures Stores(env) && env.columns.collation(b) == Some(0) && env.columns.collation(d) == Some(1)
    ensures forall s, t :: env.collates(0, s, t) == (s == t)
    ensures var base, when := Applied(UPlus, Atom(b)), Atom(d);
      && Meaning(env, CaseOf(base, when)) == Int(0)
      && Evaluate(env, Build(CaseOf(base, when))) == Int(1)
  {
    hide Build, Evaluate, Meaning;
    var cols := Columns(_ => Blob, id => if id == b then Some(0) else Some(1));
    var base, when := Applied(UPlus, Atom(b)), Atom(d);
    env := EnvWith(cols, b, Text("a"), d, Text("b"), (k, s, t) => k == 1 || s == t);
    assert !Explicit(Atom(b)) && !Explicit(base) && !Explicit(when);
    assert TextCollation(cols, Atom(b)) == Some(0) && TextCollation(cols, when) == Some(1);
    assert TextCollation(cols, base) == Some(0);
    assert Remains(Atom(b)) == Atom(b) && Remains(base) == base && Remains(when) == when && Ungrouped(base) == base;
    assert TextRule(cols, base, when) == Rule(Blob, Some(0));
    assert UsedCaseRule(cols, base, when) == Rule(Blob, Some(1));
    assert EqOf(env, Rule(Blob, Some(0)), Text("a"), Text("b")) == Int(0);
    ColumnRight(env, base);
    ColumnRight(env, when);
    CaseOfMeans(env, base, when);
    CaseOfGives(env, base, when);
  }
}
