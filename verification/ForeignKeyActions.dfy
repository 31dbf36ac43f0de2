/** What the clauses after REFERENCES in a foreign key add up to: two actions packed into one integer. */
module ForeignKeyActions {
  datatype Action = NoAction | Restrict | SetNull | SetDefault | Cascade

  const OE_None: bv32 := 0
  const OE_Restrict: bv32 := 6
  const OE_SetNull: bv32 := 7
  const OE_SetDflt: bv32 := 8
  const OE_Cascade: bv32 := 9

  function Code(a: Action): bv32 {
    match a
    case NoAction => OE_None
    case Restrict => OE_Restrict
    case SetNull => OE_SetNull
    case SetDefault => OE_SetDflt
    case Cascade => OE_Cascade
  }

  /** How an action is written. */
  function Words(a: Action): string {
    match a
    case NoAction => "NO ACTION"
    case Restrict => "RESTRICT"
    case SetNull => "SET NULL"
    case SetDefault => "SET DEFAULT"
    case Cascade => "CASCADE"
  }

  /** The words that PRAGMA foreign_key_list has for a code. */
  function ActionName(code: bv32): string {
    if code == OE_SetNull then "SET NULL"
    else if code == OE_SetDflt then "SET DEFAULT"
    else if code == OE_Cascade then "CASCADE"
    else if code == OE_Restrict then "RESTRICT"
    else "NO ACTION"
  }

  /** They are those that the code was written with, and no two actions have one code. */
  lemma {:induction false} NameOfCode(a: Action, b: Action)
    ensures ActionName(Code(a)) == Words(a)
    ensures Code(a) == Code(b) <==> a == b
    ensures Words(a) == Words(b) <==> a == b
  {
    assert "NO ACTION"[0] == 'N' && "RESTRICT"[0] == 'R' && "CASCADE"[0] == 'C';
    assert "SET NULL"[0] == 'S' && "SET DEFAULT"[0] == 'S' && "SET NULL"[4] == 'N' && "SET DEFAULT"[4] == 'D';
  }

  datatype RefArg = Match | OnInsert(action: Action) | OnDelete(action: Action) | OnUpdate(action: Action)

  /** The value and the mask of a refarg. */
  function ValueOf(arg: RefArg): bv32 {
    match arg
    case OnDelete(a) => Code(a)
    case OnUpdate(a) => Code(a) << 8
    case _ => 0
  }

  function MaskOf(arg: RefArg): bv32 {
    match arg
    case OnDelete(_) => 0x0000ff
    case OnUpdate(_) => 0x00ff00
    case _ => 0
  }

  /** refargs: nothing, or refargs and one refarg more. */
  function RefArgs(args: seq<RefArg>): bv32 {
    if args == [] then Code(NoAction) * 0x0101
    else WithRefArg(RefArgs(args[..|args|-1]), args[|args|-1])
  }

  function WithRefArg(x: bv32, arg: RefArg): bv32 {
    (x & !MaskOf(arg)) | ValueOf(arg)
  }

  /** The action of the last clause of a kind; NO ACTION if there is none. */
  function LastDelete(args: seq<RefArg>): Action {
    if args == [] then NoAction
    else if args[|args|-1].OnDelete? then args[|args|-1].action
    else LastDelete(args[..|args|-1])
  }

  function LastUpdate(args: seq<RefArg>): Action {
    if args == [] then NoAction
    else if args[|args|-1].OnUpdate? then args[|args|-1].action
    else LastUpdate(args[..|args|-1])
  }

  function Packed(onDelete: bv32, onUpdate: bv32): bv32 {
    onDelete | (onUpdate << 8)
  }

  lemma ReplaceDelete(d: bv32, u: bv32, code: bv32)
    requires d <= 0xff && u <= 0xff
    ensures (Packed(d, u) & !(0x0000ff as bv32)) | code == Packed(code, u)
  {
  }

  lemma ReplaceUpdate(d: bv32, u: bv32, code: bv32)
    requires d <= 0xff && u <= 0xff
    ensures (Packed(d, u) & !(0x00ff00 as bv32)) | (code << 8) == Packed(d, code)
  {
  }

  lemma ReplaceNothing(x: bv32)
    ensures (x & !(0 as bv32)) | 0 == x
  {
  }

  lemma Unpack(d: bv32, u: bv32)
    requires d <= 0xff && u <= 0xff
    ensures Packed(d, u) & 0xff == d && (Packed(d, u) >> 8) & 0xff == u
  {
  }

  lemma CodeFits(a: Action)
    ensures Code(a) <= 0xff
  {
  }

  lemma {:induction false} DeleteStep(d: bv32, u: bv32, a: Action)
    requires d <= 0xff && u <= 0xff
    ensures WithRefArg(Packed(d, u), OnDelete(a)) == Packed(Code(a), u)
  {
    ReplaceDelete(d, u, Code(a));
  }

  lemma {:induction false} UpdateStep(d: bv32, u: bv32, a: Action)
    requires d <= 0xff && u <= 0xff
    ensures WithRefArg(Packed(d, u), OnUpdate(a)) == Packed(d, Code(a))
  {
    ReplaceUpdate(d, u, Code(a));
  }

  lemma {:induction false} OtherStep(x: bv32, arg: RefArg)
    requires arg.Match? || arg.OnInsert?
    ensures WithRefArg(x, arg) == x
  {
    ReplaceNothing(x);
  }

  lemma {:induction false} RefArgStep(d: Action, u: Action, arg: RefArg)
    ensures WithRefArg(Packed(Code(d), Code(u)), arg)
            == Packed(Code(if arg.OnDelete? then arg.action else d), Code(if arg.OnUpdate? then arg.action else u))
  {
    CodeFits(d);
    CodeFits(u);
    match arg {
      case OnDelete(a) => DeleteStep(Code(d), Code(u), a);
      case OnUpdate(a) => UpdateStep(Code(d), Code(u), a);
      case _ => OtherStep(Packed(Code(d), Code(u)), arg);
    }
  }

  lemma {:induction false} RefArgsPacked(args: seq<RefArg>)
    ensures RefArgs(args) == Packed(Code(LastDelete(args)), Code(LastUpdate(args)))
  {
    if args != [] {
      var front := args[..|args|-1];
      RefArgsPacked(front);
      RefArgStep(LastDelete(front), LastUpdate(front), args[|args|-1]);
    }
  }

  /** For any sequence of clauses, taking the integer apart as the foreign key's creation does gives the last
      ON DELETE action and the last ON UPDATE action, and these are listed by the words they were written with; the
      other clauses change nothing. */
  lemma {:induction false} LastActionsWin(args: seq<RefArg>)
    ensures RefArgs(args) & 0xff == Code(LastDelete(args))
    ensures (RefArgs(args) >> 8) & 0xff == Code(LastUpdate(args))
    ensures ActionName(RefArgs(args) & 0xff) == Words(LastDelete(args))
    ensures ActionName((RefArgs(args) >> 8) & 0xff) == Words(LastUpdate(args))
  {
    hide Words, ActionName;
    NameOfCode(LastDelete(args), LastUpdate(args));
    NameOfCode(LastUpdate(args), LastDelete(args));
    RefArgsPacked(args);
    CodeFits(LastDelete(args));
    CodeFits(LastUpdate(args));
    Unpack(Code(LastDelete(args)), Code(LastUpdate(args)));
  }
}
