/** What the values and operators that trees are evaluated with satisfy, stated without them: the truth tables of
    three-valued logic, how values are compared, and numbers and their texts. */
module ValueLaws {
  import opened ExprTrees

  // ----- Three-valued logic: false, unknown and true are 0, 1 and 2 -----

  function Degree(env: Env, v: Value): (d: nat)
    ensures d <= 2
  {
    if v == Null then 1 else if Holds(env, v) then 2 else 0
  }

  function Lesser(a: nat, b: nat): nat {
    if a < b then a else b
  }

  function Greater(a: nat, b: nat): nat {
    if a < b then b else a
  }

  /** What an operator gives: 0, NULL or 1, for the three degrees. */
  function OfDegree(d: nat): Value {
    if d == 0 then Int(0) else if d == 1 then Null else Int(1)
  }

  /** A number is false if it is zero; a NULL is neither. */
  lemma DegreeOfNumber(env: Env, n: int)
    ensures Degree(env, Int(n)) == if n == 0 then 0 else 2
    ensures Degree(env, Null) == 1 && !Holds(env, Null)
  {
  }

  /** AND is the lesser, NOT turns the order round. */
  lemma LogicByDegree(env: Env, v: Value, w: Value)
    ensures AndOf(env, v, w) == OfDegree(Lesser(Degree(env, v), Degree(env, w)))
    ensures NotOf(env, v) == OfDegree(2 - Degree(env, v))
    ensures forall d: nat :: Degree(env, OfDegree(d)) == Lesser(d, 2)
  {
  }

  /** The tables by which the And and the Or opcode find their results; 0 is false, 1 true and 2 NULL. */
  const AND_LOGIC: seq<nat> := [0, 0, 0, 0, 1, 2, 0, 2, 2]
  const OR_LOGIC: seq<nat> := [0, 1, 2, 1, 1, 1, 2, 1, 2]

  function LogicCode(env: Env, v: Value): (code: nat)
    ensures code <= 2
  {
    if v == Null then 2 else if Holds(env, v) then 1 else 0
  }

  /** AND is what the opcode reads there, operand by operand. */
  lemma AndByTable(env: Env, v: Value, w: Value)
    ensures LogicCode(env, AndOf(env, v, w)) == AND_LOGIC[3 * LogicCode(env, v) + LogicCode(env, w)]
  {
  }

  /** The negated form of a comparison is NOT of it. */
  lemma NegatedByDegree(env: Env, neg: bool, d: nat)
    requires d <= 2
    ensures Negated(neg, OfDegree(d)) == OfDegree(if neg then 2 - d else d)
    ensures Negated(true, OfDegree(d)) == NotOf(env, OfDegree(d))
  {
  }

  /** A comparison is unknown exactly if an operand is NULL. */
  lemma ComparedDegree(env: Env, rule: Rule, v: Value, w: Value)
    ensures EqOf(env, rule, v, w) == OfDegree(Degree(env, EqOf(env, rule, v, w)))
    ensures Degree(env, EqOf(env, rule, v, w)) == 1 <==> v == Null || w == Null
  {
  }

  /** IN is the OR of its comparisons: false of an empty list, and with one more item the greater of what it was
      and the comparison with that item. */
  lemma {:induction false} InByDegree(env: Env, rule: Rule, v: Value, list: seq<Value>, w: Value)
    ensures InOf(env, rule, v, []) == Int(0)
    ensures InOf(env, rule, v, list + [w])
            == OfDegree(Greater(Degree(env, InOf(env, rule, v, list)), Degree(env, EqOf(env, rule, v, w))))
  {
    var longer := list + [w];
    assert longer[|list|] == w;
    forall i | 0 <= i < |list| ensures longer[i] == list[i] {
    }
    if Degree(env, InOf(env, rule, v, list)) == 2 {
      var i :| 0 <= i < |list| && EqOf(env, rule, v, list[i]) == Int(1);
      assert EqOf(env, rule, v, longer[i]) == Int(1);
    } else if Degree(env, InOf(env, rule, v, list)) == 1 {
      var i :| 0 <= i < |list| && EqOf(env, rule, v, list[i]) == Null;
      assert EqOf(env, rule, v, longer[i]) == Null;
    }
  }

  /** So IN with one item more is what the Or opcode makes of what it was and the comparison with that item. */
  lemma {:induction false} InByTable(env: Env, rule: Rule, v: Value, list: seq<Value>, w: Value)
    ensures LogicCode(env, InOf(env, rule, v, list + [w]))
            == OR_LOGIC[3 * LogicCode(env, InOf(env, rule, v, list)) + LogicCode(env, EqOf(env, rule, v, w))]
  {
    InByDegree(env, rule, v, list, w);
    ComparedDegree(env, rule, v, w);
  }

  /** What code generation makes of IN with a short list: one comparison after another until one is true, and a register
      that becomes NULL if an operand is.  With an empty list it would be wrong for a NULL on the left, but there is no
      such list any more. */
  method InByComparisons(env: Env, rule: Rule, v: Value, list: seq<Value>) returns (result: Value)
    requires list != []
    ensures result == InOf(env, rule, v, list)
  {
    var regCkNull := v == Null;
    var ii := 0;
    while ii < |list|
      invariant 0 <= ii <= |list|
      invariant regCkNull <==> v == Null || exists k :: 0 <= k < ii && list[k] == Null
      invariant forall k :: 0 <= k < ii ==> EqOf(env, rule, v, list[k]) != Int(1)
    {
      regCkNull := regCkNull || list[ii] == Null;
      if EqOf(env, rule, v, list[ii]) == Int(1) {
        return Int(1);
      }
      ii := ii + 1;
    }
    result := if regCkNull then Null else Int(0);
    assert v == Null ==> EqOf(env, rule, v, list[0]) == Null;
    if k :| 0 <= k < |list| && list[k] == Null {
      assert EqOf(env, rule, v, list[k]) == Null;
    }
  }

  /** NOT IN is true if and only if every comparison is false. */
  lemma {:induction false} NotInHolds(env: Env, rule: Rule, v: Value, list: seq<Value>)
    ensures Negated(true, InOf(env, rule, v, list)) == Int(1)
            <==> forall i :: 0 <= i < |list| ==> EqOf(env, rule, v, list[i]) == Int(0)
    decreases |list|
  {
    if list == [] {
      InByDegree(env, rule, v, [], Null);
    } else {
      var n := |list| - 1;
      assert list == list[..n] + [list[n]];
      InByDegree(env, rule, v, list[..n], list[n]);
      NotInHolds(env, rule, v, list[..n]);
    }
  }

  /** 5 is neither in (1, NULL) nor not in it; it is in (5, NULL); and NULL is not in an empty list. */
  lemma {:induction false} NullInTheWay(env: Env, a: Affinity)
    ensures var rule := Rule(a, None);
      && InOf(env, rule, Int(5), [Int(1), Null]) == Null
      && Negated(true, InOf(env, rule, Int(5), [Int(1), Null])) == Null
      && InOf(env, rule, Int(5), [Int(5), Null]) == Int(1)
      && InOf(env, rule, Null, []) == Int(0) && Negated(true, InOf(env, rule, Null, [])) == Int(1)
  {
    var rule := Rule(a, None);
    SameNumbers(env, a, None, 5, 1);
    SameNumbers(env, a, None, 5, 5);
    InByDegree(env, rule, Int(5), [], Int(1));
    InByDegree(env, rule, Int(5), [Int(1)], Null);
    InByDegree(env, rule, Int(5), [], Int(5));
    InByDegree(env, rule, Int(5), [Int(5)], Null);
    assert [] + [Int(1)] == [Int(1)] && [Int(1)] + [Null] == [Int(1), Null];
    assert [] + [Int(5)] == [Int(5)] && [Int(5)] + [Null] == [Int(5), Null];
  }

  /** IS is never unknown: it takes NULL for equal to NULL and to nothing else, and is = for the rest. */
  lemma IsByDegree(env: Env, rule: Rule, v: Value, w: Value)
    ensures IsOf(env, rule, v, w) == Int(0) || IsOf(env, rule, v, w) == Int(1)
    ensures IsOf(env, rule, Null, Null) == Int(1)
    ensures v != Null ==> IsOf(env, rule, v, Null) == IsOf(env, rule, Null, v) == Int(0)
    ensures v != Null && w != Null ==> IsOf(env, rule, v, w) == EqOf(env, rule, v, w)
  {
  }

  /** NULL stays NULL below a minus, and twice a minus is the number again. */
  lemma MinusTwice(env: Env, n: int)
    ensures MinusOf(env, Null) == Null && MinusOf(env, MinusOf(env, Int(n))) == Int(n)
    ensures MinusOf(env, Int(n)) == Int(n) <==> n == 0
  {
  }

  // ----- The affinity of a comparison -----

  /** It does not depend on the order of the operands; a numeric one makes it numeric, and a text one makes it text
      only beside one without any. */
  lemma {:induction false} AffinityByPair(a: Affinity, b: Affinity)
    ensures CompareAffinity(a, b) == CompareAffinity(b, a) != NoAffinity
    ensures CompareAffinity(a, b) == Numeric <==> a == Numeric || b == Numeric
    ensures CompareAffinity(a, b) == TextAffinity <==> {a, b} == {TextAffinity, NoAffinity}
  {
    assert a in {a, b} && b in {a, b};
    assert TextAffinity in {TextAffinity, NoAffinity} && NoAffinity in {TextAffinity, NoAffinity};
  }

  // ----- Numbers and their texts -----

  predicate AllDigits(s: string) {
    forall i :: 0 <= i < |s| ==> IsDigit(s[i])
  }

  lemma {:induction false} NatOfDigits(s: string)
    ensures NatOf(s).Some? <==> s != [] && AllDigits(s)
  {
    if |s| > 1 {
      NatOfDigits(s[..|s|-1]);
    }
  }

  lemma {:induction false} NatOfText(n: nat)
    ensures NatText(n) != [] && AllDigits(NatText(n)) && NatOf(NatText(n)) == Some(n)
  {
    if n >= 10 {
      NatOfText(n / 10);
      assert NatText(n)[..|NatText(n)|-1] == NatText(n / 10);
    }
  }

  /** Leading zeros do not count. */
  lemma {:induction false} NatOfPadded(s: string)
    requires s != [] && AllDigits(s)
    ensures NatOf("0" + s) == NatOf(s)
  {
    var n := |s| - 1;
    assert ("0" + s)[|s|] == s[n] && ("0" + s)[..|s|] == "0" + s[..n];
    if n > 0 {
      NatOfPadded(s[..n]);
      NatOfDigits(s[..n]);
    } else {
      assert "0" + s[..n] == "0";
      assert NatOf("0") == Some(0);
    }
  }

  /** Neither end is a space. */
  predicate Tight(s: string) {
    s != [] ==> !IsSpace(s[0]) && !IsSpace(s[|s|-1])
  }

  lemma {:induction false} TightNumber(s: string, signed: bool)
    requires Tight(s) && (signed <==> s != [] && (s[0] == '-' || s[0] == '+'))
    ensures NumberOf(s).Some? <==> NatOf(if signed then s[1..] else s).Some?
    ensures NumberOf(s).Some? ==>
      NumberOf(s).value == if signed && s[0] == '-' then 0 - NatOf(s[1..]).value
                           else NatOf(if signed then s[1..] else s).value
  {
    assert TrimmedRight(s) == s && TrimmedLeft(s) == s;
  }

  /** A number is read back from its text. */
  lemma {:induction false} NumberOfText(n: int)
    ensures NumberOf(IntText(n)) == Some(n)
  {
    var digits := NatText(if n < 0 then -n else n);
    NatOfText(if n < 0 then -n else n);
    assert IsDigit(digits[0]) && IsDigit(digits[|digits|-1]);
    if n < 0 {
      assert IntText(n)[1..] == digits;
    }
    TightNumber(IntText(n), n < 0);
  }

  /** So no two numbers have one text. */
  lemma {:induction false} TextsDiffer(m: int, n: int)
    ensures IntText(m) == IntText(n) <==> m == n
  {
    NumberOfText(m);
    NumberOfText(n);
  }

  lemma {:induction false} TrimmedAfterSpace(c: char, s: string)
    requires IsSpace(c)
    ensures TrimmedRight([c] + s) == if TrimmedRight(s) == [] then [] else [c] + TrimmedRight(s)
  {
    var t := [c] + s;
    if s == [] {
      assert t[..0] == [] && TrimmedRight([]) == [];
    } else {
      assert t[|t|-1] == s[|s|-1] && t[..|t|-1] == [c] + s[..|s|-1];
      if IsSpace(s[|s|-1]) {
        TrimmedAfterSpace(c, s[..|s|-1]);
      }
    }
  }

  /** Spaces around a text do not count. */
  lemma {:induction false} SpacesDoNotCount(c: char, s: string)
    requires c == ' ' || 9 as char <= c <= 13 as char
    ensures NumberOf(s + [c]) == NumberOf(s) && NumberOf([c] + s) == NumberOf(s)
  {
    var t := TrimmedRight(s);
    assert (s + [c])[..|s|] == s;
    TrimmedAfterSpace(c, s);
    assert t != [] ==> ([c] + t)[1..] == t;
  }

  // ----- Comparisons -----

  /** Numbers are equal as numbers, and as texts too. */
  lemma {:induction false} SameNumbers(env: Env, a: Affinity, c: Collation, m: int, n: int)
    requires a == TextAffinity ==> c.None?
    ensures EqOf(env, Rule(a, c), Int(m), Int(n)) == if m == n then Int(1) else Int(0)
  {
    TextsDiffer(m, n);
  }

  /** A number against a text: as numbers, as texts, or never equal. */
  lemma NumberAgainstText(env: Env, a: Affinity, c: Collation, n: int, s: string)
    ensures EqOf(env, Rule(a, c), Int(n), Text(s)) == Int(1) <==>
      || (a == Numeric && NumberOf(s) == Some(n))
      || (a == TextAffinity && (if c.None? then IntText(n) == s else env.collates(c.value, IntText(n), s)))
    ensures EqOf(env, Rule(a, c), Text(s), Int(n)) == Int(1) <==>
      || (a == Numeric && NumberOf(s) == Some(n))
      || (a == TextAffinity && (if c.None? then s == IntText(n) else env.collates(c.value, s, IntText(n))))
  {
  }

  /** Two texts: by the collation, unless the comparison is numeric and either of them is a number. */
  lemma TextAgainstText(env: Env, a: Affinity, c: Collation, s: string, t: string)
    ensures EqOf(env, Rule(a, c), Text(s), Text(t)) == Int(1) <==>
      if a == Numeric && (NumberOf(s).Some? || NumberOf(t).Some?) then NumberOf(s) == NumberOf(t)
      else if c.None? then s == t else env.collates(c.value, s, t)
  {
  }

  /** A blob is equal to the same blob alone. */
  lemma BytesAgainst(env: Env, rule: Rule, s: string, v: Value)
    ensures EqOf(env, rule, Bytes(s), v) == Int(1) <==> v == Bytes(s)
    ensures EqOf(env, rule, v, Bytes(s)) == Int(1) <==> v == Bytes(s)
  {
  }

  /** A column holds what its affinity leaves as it is, and that is what it makes of anything. */
  lemma StoredIsPrepared(a: Affinity, v: Value)
    ensures CanStore(a, v) <==> Prepared(a, v) == v
    ensures CanStore(a, Prepared(a, v))
  {
  }

  // ----- The collations BINARY and RTRIM -----

  predicate AllSpaces(s: string) {
    forall i :: 0 <= i < |s| ==> s[i] == ' '
  }

  /** Whether the collating function finds two texts equal: byte for byte as far as the shorter one goes, and then, if
      spaces do not count, nothing but these in the rest, else no rest. */
  predicate BinCollEqual(padFlag: bool, s: string, t: string) {
    var n := if |s| < |t| then |s| else |t|;
    && s[..n] == t[..n]
    && ((padFlag && AllSpaces(s[n..]) && AllSpaces(t[n..])) || |s| == |t|)
  }

  /** Without the spaces at its end. */
  function Stripped(s: string): string {
    if s != [] && s[|s|-1] == ' ' then Stripped(s[..|s|-1]) else s
  }

  lemma {:induction false} StrippedParts(s: string)
    ensures |Stripped(s)| <= |s| && Stripped(s) == s[..|Stripped(s)|] && AllSpaces(s[|Stripped(s)|..])
  {
    if s != [] && s[|s|-1] == ' ' {
      var front := s[..|s|-1];
      StrippedParts(front);
      assert s[|Stripped(s)|..] == front[|Stripped(s)|..] + [' '];
    }
  }

  lemma {:induction false} StrippedPadded(s: string, t: string)
    requires |s| <= |t| && s == t[..|s|] && AllSpaces(t[|s|..])
    ensures Stripped(s) == Stripped(t)
    decreases |t|
  {
    if |s| < |t| {
      var front := t[..|t|-1];
      assert t[|s|..][|t|-1-|s|] == ' ';
      assert front[|s|..] == t[|s|..][..|t|-1-|s|];
      StrippedPadded(s, front);
    } else {
      assert t[..|t|] == t;
    }
  }

  lemma {:induction false} SameStripped(s: string, t: string)
    requires |s| <= |t| && Stripped(s) == Stripped(t)
    ensures s == t[..|s|] && AllSpaces(t[|s|..])
  {
    var n := |Stripped(s)|;
    StrippedParts(s);
    StrippedParts(t);
    forall i | 0 <= i < |s| ensures s[i] == t[i] {
      if i < n {
        assert s[..n][i] == t[..n][i];
      } else {
        assert s[n..][i - n] == ' ' == t[n..][i - n];
      }
    }
    forall i | 0 <= i < |t| - |s| ensures t[|s|..][i] == ' ' {
      assert t[n..][|s| - n + i] == ' ';
    }
  }

  /** BINARY takes equal texts for equal and no others, RTRIM those that differ in spaces at the end alone. */
  lemma {:induction false} BinCollTakes(s: string, t: string)
    ensures BinCollEqual(false, s, t) <==> s == t
    ensures BinCollEqual(true, s, t) <==> Stripped(s) == Stripped(t)
  {
    var short, long := if |s| < |t| then s else t, if |s| < |t| then t else s;
    assert s[..|s|] == s && t[..|t|] == t && s[|s|..] == [] && t[|t|..] == [];
    if BinCollEqual(true, s, t) {
      StrippedPadded(short, long);
    }
    if Stripped(s) == Stripped(t) {
      SameStripped(short, long);
    }
  }
}
