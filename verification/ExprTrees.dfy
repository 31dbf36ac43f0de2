/** Expression trees as the parser leaves them, and what evaluating one gives: three-valued logic, and
    comparisons by affinity and collation. */
module ExprTrees {
  datatype Option<T> = None | Some(value: T)

  /** Numbers are integers here. */
  datatype Value = Null | Int(n: int) | Text(s: string) | Bytes(s: string)

  /** Numeric stands for NUMERIC, INTEGER and REAL, which comparisons do not tell apart. */
  datatype Affinity = NoAffinity | Blob | TextAffinity | Numeric

  /** None is no collation at all, as of an expression that is not a column.  A column always has one; where it
      declares none that is the default collation, which takes equal texts for equal. */
  type Collation = Option<nat>

  /** How the columns are declared. */
  datatype Columns = Columns(affinity: nat -> Affinity, collation: nat -> Collation)

  /** What a tree is evaluated in: the leaves, which texts a collation takes for equal, and the number that
      a text or a blob is for the boolean and the minus operator. */
  datatype Env = Env(
    value: nat -> Value,
    columns: Columns,
    collates: (nat, string, string) -> bool,
    truthOf: string -> bool,
    minusOf: string -> Value)

  // ----- Numbers and their text -----

  predicate IsDigit(c: char) {
    '0' <= c <= '9'
  }

  function NatText(n: nat): string {
    if n < 10 then ['0' + n as char] else NatText(n / 10) + ['0' + (n % 10) as char]
  }

  function IntText(n: int): string {
    if n < 0 then ['-'] + NatText(-n) else NatText(n)
  }

  predicate IsSpace(c: char) {
    c == ' ' || 9 as char <= c <= 13 as char
  }

  function TrimmedLeft(s: string): string {
    if s != [] && IsSpace(s[0]) then TrimmedLeft(s[1..]) else s
  }

  function TrimmedRight(s: string): string {
    if s != [] && IsSpace(s[|s|-1]) then TrimmedRight(s[..|s|-1]) else s
  }

  function NatOf(s: string): Option<nat> {
    if s == [] || !IsDigit(s[|s|-1]) then None
    else
      var d := (s[|s|-1] - '0') as nat;
      if |s| == 1 then Some(d)
      else
        var front := NatOf(s[..|s|-1]);
        if front.Some? then Some(10 * front.value + d) else None
  }

  /** The integer that a text is, with spaces around it and a sign. */
  function NumberOf(text: string): Option<int> {
    var s := TrimmedLeft(TrimmedRight(text));
    var signed := s != [] && (s[0] == '-' || s[0] == '+');
    var digits := NatOf(if signed then s[1..] else s);
    if digits.None? then None
    else
      var n: int := digits.value;
      Some(if signed && s[0] == '-' then -n else n)
  }

  /** What a column of the affinity can hold. */
  predicate CanStore(a: Affinity, v: Value) {
    match a
    case TextAffinity => !v.Int?
    case Numeric => v.Text? ==> NumberOf(v.s) == None
    case _ => true
  }

  ghost predicate Stores(env: Env) {
    forall id: nat :: CanStore(env.columns.affinity(id), env.value(id))
  }

  // ----- Trees -----

  /** EP_Collate and EP_Generic of the node. */
  datatype Flags = Flags(collate: bool, generic: bool)

  datatype UnaryOp = Not | IsNull | NotNull | UPlus | UMinus

  datatype BinaryOp = Eq | Ne | Is | IsNot | And

  /** An alias is the name of a result column that is a column.  Name resolution overwrites its node with a copy
      of that column's, so that its flags count for nothing. */
  datatype Expr =
    | Leaf(id: nat, flags: Flags)
    | Alias(id: nat, flags: Flags)
    | Number(n: int, flags: Flags)
    | NullLiteral(flags: Flags)
    | Collated(operand: Expr, name: nat, flags: Flags)
    | Likely(operand: Expr, flags: Flags)
    | Unary(uop: UnaryOp, operand: Expr, flags: Flags)
    | Binary(bop: BinaryOp, left: Expr, right: Expr, flags: Flags)
    | InList(left: Expr, list: seq<Expr>, flags: Flags)
    | CaseList(base: Option<Expr>, list: seq<Expr>, flags: Flags)

  // ----- How a comparison is made -----

  /** Below COLLATE operators and below likely() and the like. */
  function SkipCollate(e: Expr): Expr {
    if Skips(e) then SkipCollate(e.operand) else e
  }

  predicate Skips(e: Expr) {
    e.Collated? || e.Likely?
  }

  function AffinityOf(cols: Columns, e: Expr): Affinity {
    match SkipCollate(e)
    case Leaf(id, flags) => if flags.generic then NoAffinity else cols.affinity(id)
    case Alias(id, _) => cols.affinity(id)
    case _ => NoAffinity
  }

  predicate SomeCollate(list: seq<Expr>) {
    exists i :: 0 <= i < |list| && list[i].flags.collate
  }

  /** The first item whose tree holds a COLLATE operator, from the i-th on. */
  function FirstCollate(list: seq<Expr>, i: nat): (k: nat)
    requires i <= |list|
    ensures i <= k <= |list|
    decreases |list| - i
  {
    if i == |list| || list[i].flags.collate then i else FirstCollate(list, i + 1)
  }

  function CollationOf(cols: Columns, e: Expr): Collation {
    if e.Alias? then cols.collation(e.id)
    else if e.flags.generic then None
    else
      match e
      case Leaf(id, _) => cols.collation(id)
      case Collated(_, name, _) => Some(name)
      case Likely(operand, flags) =>
        if flags.collate && operand.flags.collate then CollationOf(cols, operand) else None
      case Unary(op, operand, flags) =>
        if op == UPlus || (flags.collate && operand.flags.collate) then CollationOf(cols, operand) else None
      case Binary(_, left, right, flags) =>
        if !flags.collate then None
        else if left.flags.collate then CollationOf(cols, left) else CollationOf(cols, right)
      case InList(left, list, flags) =>
        if !flags.collate then None
        else if left.flags.collate then CollationOf(cols, left)
        else
          var k := FirstCollate(list, 0);
          if k < |list| then CollationOf(cols, list[k]) else None
      case CaseList(base, list, flags) =>
        if !flags.collate then None
        else if base.Some? && base.value.flags.collate then CollationOf(cols, base.value)
        else
          var k := FirstCollate(list, 0);
          if k < |list| then CollationOf(cols, list[k]) else None
      case _ => None
  }

  /** The affinity for comparing operands that have these. */
  function CompareAffinity(a: Affinity, b: Affinity): Affinity {
    if a != NoAffinity && b != NoAffinity then
      if a == Numeric || b == Numeric then Numeric else Blob
    else if a == NoAffinity && b == NoAffinity then Blob
    else if a == NoAffinity then b
    else a
  }

  /** A COLLATE operator anywhere on the left wins, then one on the right, then a column's own. */
  function CompareCollation(cols: Columns, explicit: bool, own: Collation, right: Expr): Collation {
    if explicit then own
    else if right.flags.collate || own.None? then CollationOf(cols, right)
    else own
  }

  datatype Rule = Rule(affinity: Affinity, collation: Collation)

  function RuleOf(cols: Columns, left: Expr, right: Expr): Rule {
    Rule(CompareAffinity(AffinityOf(cols, left), AffinityOf(cols, right)),
         CompareCollation(cols, left.flags.collate, CollationOf(cols, left), right))
  }

  /** IN with a list looks at its left-hand side alone. */
  function InRule(cols: Columns, left: Expr): Rule {
    Rule(CompareAffinity(AffinityOf(cols, left), NoAffinity), CollationOf(cols, left))
  }

  /** CASE keeps its base in a register, which hides a COLLATE from the affinity and a + from the collation. */
  function CaseRule(cols: Columns, base: Expr, when: Expr): Rule {
    var affinity := if Skips(base) then NoAffinity else AffinityOf(cols, base);
    var own := if base.Unary? && base.uop == UPlus && !(base.flags.collate && base.operand.flags.collate) then None
               else CollationOf(cols, base);
    Rule(CompareAffinity(affinity, AffinityOf(cols, when)),
         CompareCollation(cols, base.flags.collate, own, when))
  }

  // ----- Three-valued results (sections 8.4 and 8.12 of ISO/IEC 9075:1992) -----

  function Bool(b: bool): Value {
    if b then Int(1) else Int(0)
  }

  function Negated(neg: bool, v: Value): Value {
    if !neg then v else if v == Int(1) then Int(0) else if v == Int(0) then Int(1) else Null
  }

  predicate Holds(env: Env, v: Value) {
    match v
    case Null => false
    case Int(n) => n != 0
    case Text(s) => env.truthOf(s)
    case Bytes(s) => env.truthOf(s)
  }

  function NotOf(env: Env, v: Value): Value {
    if v == Null then Null else Bool(!Holds(env, v))
  }

  function AndOf(env: Env, v: Value, w: Value): Value {
    if (v != Null && !Holds(env, v)) || (w != Null && !Holds(env, w)) then Int(0)
    else if v == Null || w == Null then Null
    else Int(1)
  }

  /** A value as a comparison of this affinity takes it. */
  function Prepared(a: Affinity, v: Value): Value {
    match a
    case TextAffinity => if v.Int? then Text(IntText(v.n)) else v
    case Numeric => if v.Text? && NumberOf(v.s).Some? then Int(NumberOf(v.s).value) else v
    case _ => v
  }

  predicate SameBy(collates: (nat, string, string) -> bool, c: Collation, s: string, t: string) {
    if c.None? then s == t else collates(c.value, s, t)
  }

  predicate SameText(env: Env, c: Collation, s: string, t: string) {
    SameBy(env.collates, c, s, t)
  }

  /** Values of different types are never equal; the collation is for texts. */
  predicate Equal(env: Env, c: Collation, v: Value, w: Value) {
    if v.Text? && w.Text? then SameText(env, c, v.s, w.s) else v == w
  }

  function EqOf(env: Env, rule: Rule, v: Value, w: Value): Value {
    if v == Null || w == Null then Null
    else Bool(Equal(env, rule.collation, Prepared(rule.affinity, v), Prepared(rule.affinity, w)))
  }

  function IsOf(env: Env, rule: Rule, v: Value, w: Value): Value {
    if v == Null || w == Null then Bool(v == w) else EqOf(env, rule, v, w)
  }

  function MinusOf(env: Env, v: Value): Value {
    match v
    case Null => Null
    case Int(n) => Int(-n)
    case Text(s) => env.minusOf(s)
    case Bytes(s) => env.minusOf(s)
  }

  /** True if some value is equal; otherwise unknown if a NULL is in the way; otherwise false.  With no
      values at all it is false, whatever the left-hand side. */
  function InOf(env: Env, rule: Rule, v: Value, list: seq<Value>): Value {
    if exists i :: 0 <= i < |list| && EqOf(env, rule, v, list[i]) == Int(1) then Int(1)
    else if exists i :: 0 <= i < |list| && EqOf(env, rule, v, list[i]) == Null then Null
    else Int(0)
  }

  // ----- Evaluating a tree -----

  function Evaluate(env: Env, e: Expr): Value
    decreases e, 1, 0
  {
    match e
    case Leaf(id, _) => env.value(id)
    case Alias(id, _) => env.value(id)
    case Number(n, _) => Int(n)
    case NullLiteral(_) => Null
    case Collated(operand, _, _) => Evaluate(env, operand)
    case Likely(operand, _) => Evaluate(env, operand)
    case Unary(op, operand, _) =>
      var v := Evaluate(env, operand);
      (match op
       case Not => NotOf(env, v)
       case IsNull => Bool(v == Null)
       case NotNull => Bool(v != Null)
       case UPlus => v
       case UMinus => MinusOf(env, v))
    case Binary(op, left, right, _) =>
      var v, w, rule := Evaluate(env, left), Evaluate(env, right), RuleOf(env.columns, left, right);
      (match op
       case Eq => EqOf(env, rule, v, w)
       case Ne => Negated(true, EqOf(env, rule, v, w))
       case Is => IsOf(env, rule, v, w)
       case IsNot => Negated(true, IsOf(env, rule, v, w))
       case And => AndOf(env, v, w))
    case InList(left, list, _) =>
      InOf(env, InRule(env.columns, left), Evaluate(env, left), EvaluateAll(env, list))
    case CaseList(_, _, _) => EvaluateCase(env, e, 0)
  }

  function EvaluateAll(env: Env, list: seq<Expr>): (values: seq<Value>)
    ensures |values| == |list| && forall i :: 0 <= i < |list| ==> values[i] == Evaluate(env, list[i])
    decreases list, 0, 0
  {
    seq(|list|, i requires 0 <= i < |list| => Evaluate(env, list[i]))
  }

  /** The list holds WHEN and THEN by turns, and an ELSE if its length is odd. */
  function EvaluateCase(env: Env, e: Expr, i: nat): Value
    requires e.CaseList? && i <= |e.list|
    decreases e, 0, |e.list| - i
  {
    if i + 1 < |e.list| then
      if Holds(env, CaseTest(env, e, i)) then Evaluate(env, e.list[i+1]) else EvaluateCase(env, e, i + 2)
    else if i < |e.list| then Evaluate(env, e.list[i])
    else Null
  }

  function CaseTest(env: Env, e: Expr, i: nat): Value
    requires e.CaseList? && i < |e.list|
    decreases e, 0, 0
  {
    var w := Evaluate(env, e.list[i]);
    match e.base
    case None => w
    case Some(base) => EqOf(env, CaseRule(env.columns, base, e.list[i]), Evaluate(env, base), w)
  }
}
