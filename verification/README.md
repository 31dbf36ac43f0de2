# The SQLite parser and keyword lookup, modelled and proved in Dafny

The application carries a copy of SQLite 3.15.2. This project models the front end of that copy, in
`MK_ComickBook/Pods/WCDBOptimizedSQLCipher/`: the LALR(1) push parser that Lemon generated (`parse.c`), the actions
of its grammar that change the meaning or the shape of what they are given, and the generated keyword index
(`keywordhash.h`).

`dafny verify dfyconfig.toml` checks everything. Every lemma with a proof switches automatic induction off, so that
no proof rests on an induction hypothesis it does not show.

## The parser

`LemonTables` holds the packed tables as parameters, the two lookups, and how the rows of the plain table are packed.
`Grammar` defines derivation up to the three ways in which the stack holds another symbol than the rule names: a
token keeps its code when its fallback was shifted, it keeps its code when the wildcard was matched, and an
optimized-out unit rule leaves the inner symbol where the outer is expected. `PushMachine` is the automaton as a
function on configurations; a configuration is the stack of (state, symbol, parse tree) and a trace of everything the
driver did to the rest of the program. Its predicate `Valid` says when the tables belong to a grammar: it asks for a
set of LR items for each state (a part of the tables here that the generated C file no longer has), that every entry
moves the dots of items of its state or reduces by an item that is complete there, and that gotos exist where items
begin.

`ParserRuns` proves, wherever the driver can get on any valid table, that a step never fails an assert and that accept
means a sentence of the grammar. `ViablePrefix` proves that the tokens taken at any time are the beginning of a
sentence, if every item is in its state for a reason and every symbol can become tokens. `ParserRuns` also proves that
each call returns, if no symbol of the grammar derives itself: then, by `ForestBound`, a parse forest over given tokens
has a bounded number of nodes, and each round of the loop adds one. `Conservation` keeps the books of semantic values,
`FusedReduce` compares the machine that delays the reduction of a fused action with the textbook one that reduces at
once by the rule of the action, and `GrowingStack` is the build with a reallocated stack, with the same results at any
depth. `ParserObject` is the parser as the C code has it, an array and an index changed in place, each method tied to
the function it computes. `CommandTables` and `NestedTables` are two small sets of tables: on the first a run accepts,
on the second three things go wrong.

## The actions

`SelectChain` gives compound SELECTs a meaning twice, for the text and for the chain of terms that the actions build,
and proves them equal; `CompoundCode` is what is generated for a chain, with its temporary tables, and gives the same
rows; `SelectObjects` is the same chain as linked objects. `ExprTrees` says what an expression tree evaluates to, with
three-valued logic and comparisons by affinity and collation, and `ValueLaws` what these satisfy, by truth tables and
cases of their own. `ExprRewrites` has the actions on trees. `ExprTexts` has the meaning of a text, told from the text
alone, and what the trees say of affinity and collation; `TextMeanings` compares the two, and `OrdinaryTexts` has the
texts for which they agree without more ado. `CaseBases` and `LostCollations` say exactly when two of the ways in which
they differ matter. `ExprNodes` has the nodes that IS and IN change in place. `SourceSpans` treats the stack slots as
the union of token and expression that they are in C. `ForeignKeyActions` and `TriggerSteps` are two small folds.

## The keyword index

`KeywordTables` has the arrays of the header, `KeywordRows` what they say of each of the 124 keywords, `TokenNames` the
names that the parser has for its tokens, by which the codes are checked, and `KeywordLookup` the chained-hash walk,
equal to a linear search for every sequence of bytes.

## Where the code falls short

Each of these has its exact condition, to be told before the step, and an input that shows it.

- **A value is lost.** An empty rule that overflows the stack drops the value on top without its destructor, because
  `yyStackOverflow` first takes one entry away that in this case is in use. A round loses a value exactly if its next
  move is a reduction by an empty rule and the stack has 100 entries (`Conservation.StepLosesExactly`, and
  `FreedParserBalances` for whole runs; with a growing stack, if it is full and no room is to be had,
  `GrowingStack.GrowStepLosesExactly`); fifty parentheses do it in `NestedTables.NestingLosesAValue`. The shipped
  grammar has empty rules within nested parentheses, such as `as ::=` in a result list, so that its tables allow this.
- **A token is passed over.** A call that finds delayed reductions which empty the stack returns without having looked
  at its token (`FusedReduce.FusedCallRefines`, `RunsAgreeExactly`; `NestedTables.CloseDiscardsTheNext`). This needs a
  fused action by a rule of the start symbol. The shipped `yy_action` has none: rule 276 is the only rule of `input`,
  and there is no entry 948. So in this parser it cannot happen.
- **The base is dropped.** In the build with a growing stack, without memory for the very first allocation, an empty
  rule that comes first leaves the top index below the base (`GrowingStack.GrowingParser.Reduce`;
  `NestedTables.FirstReductionWithoutMemory`). The default action of state 0 in the shipped tables is such a rule,
  `explain ::=`, but the shipped configuration has a fixed stack, of which this is not true.
- **IN (x) is not always = x.** `a IN (b COLLATE c)` becomes `a = (b COLLATE c)` with the right-hand side marked so that
  it has no say in how to compare, but the affinity is looked up below the COLLATE, where there is no mark; and if x
  is the alias of a result column, name resolution overwrites the marked node (`src/resolve.c:92-109`). The comment at
  `parse.c:3404-3418` promises the meaning of IN; for columns and aliases of columns the code keeps it, for all
  storable values and whatever texts the collations take for equal, exactly unless the affinity that is found in this
  way overrides that of the left-hand side, or an alias lends its collation to a left-hand side that has none
  (`ExprRewrites.SingleItemKeptExactly`), as for the text 01 against a numeric 1.
- **A COLLATE is forgotten.** `(a COLLATE c IN ()) = b` and `(a COLLATE c AND 0) = b` become a constant compared with b,
  and `(x IN (y COLLATE c)) = b` loses its COLLATE to the mark. What is left is an integer, but if b is a TEXT column it
  is compared as text, and then the collation that decides is that of b instead of c. Which comparisons this changes is
  `LostCollations.ConstantKeptExactly`, `ItemKeptExactly` and, in general, `DigitsKeptExactly`; values for all three
  forms are in `LostCollateChanges`.
- **CASE x WHEN e is not always CASE WHEN x = e**, although `src/expr.c:3801-3808` says so. The base is put in a
  register first; that hides the affinity of a column under COLLATE or likely(), and the collation of a column under a
  plus (`CaseBases.CaseKeptExactly`, `CaseIntegerKeptExactly`; `CoveredBaseChanges`, `PlusChanges`).
- **DEL passes for an underscore.** Clearing bit 5 is not quite ignoring case (`KeywordLookup.LookupIgnoresCase`,
  `DelIsTakenForUnderscore`). No compiled caller in these files can pass a DEL: the tokenizer hands over letters and
  underscores only (`src/tokenize.c:425-437`), `identPut` stops at the first byte that is neither alphanumeric nor an
  underscore (`src/build.c:1497-1501`), and the test control at `src/main.c:3747-3763` is left out of a build from
  separate files.

## Model

| member | source | states |
|---|---|---|
| `LemonTables.PackingDecodes` | MK_ComickBook/Pods/WCDBOptimizedSQLCipher/parse.c:390-412 | The rows of the plain action and goto tables are written into one pair of arrays, each displaced by an offset and overlapping as they may: the lookahead array tells all rows apart, each found exactly and no entry of another row taken for its own, if and only if no two different rows of a kind have the same offset |
| `LemonTables.CompressedIsSparse` | MK_ComickBook/Pods/WCDBOptimizedSQLCipher/parse.c:1721-1809 | So both lookups of the driver are lookups in the plain table: the entry for the token, else for what the fallback array has at the token unless that is 0 or the array ends before it, else for the wildcard unless the token is the end of input, else the default of the state; and a goto is there exactly if the plain row has it |
| `LemonTables.RangesFit` | MK_ComickBook/Pods/WCDBOptimizedSQLCipher/parse.c:318-327 | The ranges of action codes: one shift for each of the 460 states, a fused action and a reduction for each of the 332 rules in the same order, and rebasing takes the one range to the other |
| `CommandTables.RowsArePlaced` | MK_ComickBook/Pods/WCDBOptimizedSQLCipher/parse.c:390-412 | The packing is one that occurs: the plain rows of a small set of tables lie in its arrays in that way, apart from one another |
| `ParserObject.FindShiftAction` | MK_ComickBook/Pods/WCDBOptimizedSQLCipher/parse.c:1721-1778 | The loop computes that lookup with every read in bounds although the lower-bound test on the wildcard index is compiled out, goes around at most twice, and hands back a pending reduce code unchanged |
| `Grammar.UnitStepsDerive` | MK_ComickBook/Pods/WCDBOptimizedSQLCipher/parse.c:3896-3949 | A symbol left on the stack by any number of optimized-out unit rules is derived from the symbol that was expected there |
| `Grammar.StandsForExactly` | MK_ComickBook/Pods/WCDBOptimizedSQLCipher/parse.c:1733-1769 | A token stands for another, by fallback or by the wildcard, exactly if the lookup in a state whose only entry is for the other gives it that entry |
| `Grammar.ActsAsFallback` | MK_ComickBook/Pods/WCDBOptimizedSQLCipher/parse.c:1737-1748 | A token below the end of the fallback array with an entry other than 0 acts as that entry |
| `Grammar.ActsAsDerives` | MK_ComickBook/Pods/WCDBOptimizedSQLCipher/parse.c:1746-1769 | A symbol derives each symbol or token that may stand on the stack in its place: by fallback, by the wildcard or by optimized-out unit rules |
| `Grammar.TreeDerives` | MK_ComickBook/Pods/WCDBOptimizedSQLCipher/parse.c:1897-1902 | The symbol at the root of a parse tree built by reductions derives exactly the token codes at its leaves |
| `Grammar.ForestDerives` | MK_ComickBook/Pods/WCDBOptimizedSQLCipher/parse.c:3955-3968 | The roots of several such trees derive all their leaves in order |
| `ForestBound.SameYieldDerives` | MK_ComickBook/Pods/WCDBOptimizedSQLCipher/parse.c:4078-4098 | A node that spans the same tokens as one it lies within is derived from it, in one step or more unless they are the same node |
| `ForestBound.SizeWithin` | MK_ComickBook/Pods/WCDBOptimizedSQLCipher/parse.c:4078-4098 | In a grammar in which no symbol derives itself, the size of a parse tree is bounded by its number of tokens |
| `ForestBound.ForestSize` | MK_ComickBook/Pods/WCDBOptimizedSQLCipher/parse.c:2241-2283 | The number of nodes of all trees on a stack of bounded depth is bounded by the number of tokens they span |
| `PushMachine.HandleOnStack` | MK_ComickBook/Pods/WCDBOptimizedSQLCipher/parse.c:1784-1809 | Below an item with its dot after n symbols lie n stack entries that may stand for those symbols, and below them a state with the item at its start |
| `PushMachine.UnwindsFromTop` | MK_ComickBook/Pods/WCDBOptimizedSQLCipher/parse.c:1690-1695 | Unwinding destroys each value above the base once, the top one first and the lowest last |
| `PushMachine.CanReduce` | MK_ComickBook/Pods/WCDBOptimizedSQLCipher/parse.c:3955-3973 | For every complete item on top, the asserts of the goto lookup and of accept hold: enough entries, a goto that exists, accept only for the start symbol; and the values on the stack make a well-formed node |
| `PushMachine.ShiftCoheres` | MK_ComickBook/Pods/WCDBOptimizedSQLCipher/parse.c:1857-1892 | A shift keeps base entry, links between entries and the forest whose leaves are the tokens taken, also when it overflows, at any depth of the stack |
| `PushMachine.ReduceCoheres` | MK_ComickBook/Pods/WCDBOptimizedSQLCipher/parse.c:2241-2283 | A reduction keeps the same, including accept and the overflow of an empty rule |
| `ParserRuns.MoveCases` | MK_ComickBook/Pods/WCDBOptimizedSQLCipher/parse.c:4078-4098 | On valid tables each action is a shift of a symbol the token stands for, a reduction whose right-hand side is complete, or the error action |
| `ParserRuns.StepCoheres` | MK_ComickBook/Pods/WCDBOptimizedSQLCipher/parse.c:4089-4190 | Every round of the loop on every valid table is defined (no assert fails, no read is out of bounds), keeps the same, and stays within the room there is, be it fixed or grown |
| `ParserRuns.ReduceOutcome` | MK_ComickBook/Pods/WCDBOptimizedSQLCipher/parse.c:3955-3973 | A reduction leaves its result on what was below the handle, or the bare base: by accept of the start symbol, or by the overflow of an empty rule when there is no room |
| `ParserRuns.StepAddsNode` | MK_ComickBook/Pods/WCDBOptimizedSQLCipher/parse.c:4078-4098 | A round that does not end the call adds one node to the forest and leaves its tokens alone, which with the bound on the forest makes every call return |
| `ParserRuns.Rounds` | MK_ComickBook/Pods/WCDBOptimizedSQLCipher/parse.c:4089-4190 | Every call returns: the loop of the object goes round this often (`ParserObject.Parser.Feed`), which is at most once more than the forest on the stack can still grow, as the grammar and the number of tokens taken bound it |
| `ParserRuns.Call` | MK_ComickBook/Pods/WCDBOptimizedSQLCipher/parse.c:4060-4201 | Being defined for every token, a call returns for every input, and it keeps the invariant |
| `ParserRuns.ReachedShape` | MK_ComickBook/Pods/WCDBOptimizedSQLCipher/parse.c:1857-1892 | Wherever the driver can get on any valid table: 1 to 100 entries, the base entry never overwritten, state 0 only at the base, a pending reduce code only on top |
| `ParserRuns.StackDerivesLive` | MK_ComickBook/Pods/WCDBOptimizedSQLCipher/parse.c:4060-4098 | At any time the symbols on the stack, in order, derive exactly the tokens taken since the last accept or overflow |
| `ParserRuns.ReachedSound` | MK_ComickBook/Pods/WCDBOptimizedSQLCipher/parse.c:4060-4201 | Wherever the driver can get on any valid table, each accept was of tokens that form a sentence of the start symbol |
| `ParserRuns.RunIsReached` | MK_ComickBook/Pods/WCDBOptimizedSQLCipher/parse.c:4089-4190 | Every run of whole calls gets to one of those configurations, so that what holds there holds for all runs |
| `ParserRuns.CallOutcome` | MK_ComickBook/Pods/WCDBOptimizedSQLCipher/parse.c:4060-4201 | Each call takes its token exactly once, or reports it as a syntax error, destroys it and leaves the tokens taken as they were, or ends at the base by accept or overflow with the token given up; before an end other than an overflow it only reduces |
| `ParserRuns.AcceptedInput` | MK_ComickBook/Pods/WCDBOptimizedSQLCipher/parse.c:4021-4045 | If all tokens are taken without an error and one more token leads to accept, those tokens are a sentence and the stack is as it was at first |
| `ViablePrefix.ReachedIsPrefix` | MK_ComickBook/Pods/WCDBOptimizedSQLCipher/parse.c:4060-4201 | The correct-prefix property: wherever the driver can get, the tokens taken since the last accept or overflow are the beginning of a sentence, for every valid table in which each item is called for by another and each symbol can become tokens |
| `ViablePrefix.GrowReachedIsPrefix` | MK_ComickBook/Pods/WCDBOptimizedSQLCipher/parse.c:1467-1492 | The same in the growing build at any depth |
| `ViablePrefix.ShiftedIsPrefix` | MK_ComickBook/Pods/WCDBOptimizedSQLCipher/parse.c:4089-4096 | A call takes its token only if the tokens taken before and this one are the beginning of a sentence, so that an error is found at the first token that has no way on |
| `CommandTables.TablesAreClosed` | MK_ComickBook/Pods/WCDBOptimizedSQLCipher/parse.c:1402-1407 | A small set of tables meets both conditions |
| `Conservation.ReachedConserves` | MK_ComickBook/Pods/WCDBOptimizedSQLCipher/parse.c:1669-1705 | For every value wherever the driver can get on any valid table: pushed as often as used by a reduction, destroyed, lost or still on the stack together |
| `Conservation.CountIsMultiplicity` | MK_ComickBook/Pods/WCDBOptimizedSQLCipher/parse.c:1669-1705 | The counts in these books are multiplicities |
| `Conservation.StepLosesExactly` | MK_ComickBook/Pods/WCDBOptimizedSQLCipher/parse.c:2269-2275 | A round loses the value on top exactly if it reduces by an empty rule while the stack is at its full depth, and never any other |
| `Conservation.CallLosesExactly` | MK_ComickBook/Pods/WCDBOptimizedSQLCipher/parse.c:1814-1832 | A call loses what is on top when the reductions told from its configuration and token lead to such a round, and nothing else |
| `Conservation.RunLosesExactly` | MK_ComickBook/Pods/WCDBOptimizedSQLCipher/parse.c:1814-1832 | A run loses what its calls lose, each told from the configuration it begins in |
| `Conservation.FreedParserBalances` | MK_ComickBook/Pods/WCDBOptimizedSQLCipher/parse.c:1690-1705 | Once the parser is freed, a value was used or destroyed as often as it was pushed, if and only if no call began in a configuration from which it had to lose that value |
| `ParserObject.Parser.Alloc` | MK_ComickBook/Pods/WCDBOptimizedSQLCipher/parse.c:1516-1540 | A new parser has the base entry alone, with state 0 |
| `ParserObject.Parser.PopParserStack` | MK_ComickBook/Pods/WCDBOptimizedSQLCipher/parse.c:1669-1682 | The top entry goes and its destructor runs |
| `ParserObject.Parser.PopAll` | MK_ComickBook/Pods/WCDBOptimizedSQLCipher/parse.c:1690-1705 | Everything above the base is destroyed, the top first |
| `ParserObject.Parser.StackOverflow` | MK_ComickBook/Pods/WCDBOptimizedSQLCipher/parse.c:1814-1832 | The top entry is dropped without a destructor, the rest are destroyed, and the overflow is reported |
| `ParserObject.Parser.Shift` | MK_ComickBook/Pods/WCDBOptimizedSQLCipher/parse.c:1857-1892 | The array and the index change as the abstract shift says |
| `ParserObject.Parser.Reduce` | MK_ComickBook/Pods/WCDBOptimizedSQLCipher/parse.c:2241-2283 | The array and the index change as the abstract reduction says |
| `ParserObject.Parser.Round` | MK_ComickBook/Pods/WCDBOptimizedSQLCipher/parse.c:4089-4201 | One round of the loop does the abstract step and stops when that step ends the call |
| `ParserObject.Parser.Feed` | MK_ComickBook/Pods/WCDBOptimizedSQLCipher/parse.c:4060-4201 | The whole call terminates, ends in the configuration of the abstract call and goes round as often as that |
| `ParserObject.Parser.Free` | MK_ComickBook/Pods/WCDBOptimizedSQLCipher/parse.c:1690-1705 | Freeing destroys every value above the base |
| `FusedReduce.FusedReduces` | MK_ComickBook/Pods/WCDBOptimizedSQLCipher/parse.c:1884-1890 | Off the stack, the rebased code makes the reduction that the fused action names: the same rule, on the symbol at hand and those before it, with the same result |
| `FusedReduce.EagerStepSettles` | MK_ComickBook/Pods/WCDBOptimizedSQLCipher/parse.c:4089-4098 | A round of the textbook machine, which puts nothing but states on its stack and reduces by action minus 672 at once, is a round of the driver and the reductions it puts off |
| `FusedReduce.CallSettlesFirst` | MK_ComickBook/Pods/WCDBOptimizedSQLCipher/parse.c:1728-1728 | A call first does the reductions that were put off, then goes on with its token unless they emptied the stack |
| `FusedReduce.CallIsEager` | MK_ComickBook/Pods/WCDBOptimizedSQLCipher/parse.c:1884-1890 | From a stack of states, a call followed by the reductions it put off ends where the call of the textbook machine ends |
| `FusedReduce.FusedCallRefines` | MK_ComickBook/Pods/WCDBOptimizedSQLCipher/parse.c:3958-3967 | The two machines do the same reductions on the same values in the same order, if and only if the reductions left over from the call before do not empty the stack; if they do, the call does nothing else and its token is discarded |
| `FusedReduce.RunsAgreeExactly` | MK_ComickBook/Pods/WCDBOptimizedSQLCipher/parse.c:4089-4098 | Over every run the two machines agree after each token if and only if no call of the run discards its token |
| `FusedReduce.FusedRunRefines` | MK_ComickBook/Pods/WCDBOptimizedSQLCipher/parse.c:4089-4098 | Over every run they agree for every set of tables in which no fused action is by a rule of the start symbol |
| `CommandTables.TablesAreValid` | MK_ComickBook/Pods/WCDBOptimizedSQLCipher/parse.c:1401-1405 | There are valid tables: the top rules of the grammar with a fallback, the wildcard, fused actions, a default reduction and an optimized-out unit rule |
| `CommandTables.NothingDerivesItself` | MK_ComickBook/Pods/WCDBOptimizedSQLCipher/parse.c:3896-3900 | In their grammar no symbol derives itself |
| `CommandTables.SemicolonIsAccepted` | MK_ComickBook/Pods/WCDBOptimizedSQLCipher/parse.c:4060-4201 | A run on them that accepts: shift with a delayed reduction, the reduction forced by the end of input, ecmd left where cmdlist is expected, accept |
| `CommandTables.QueryIsAccepted` | MK_ComickBook/Pods/WCDBOptimizedSQLCipher/parse.c:1733-1769 | Another: QUERY, which has no entry of its own, is shifted as the EXPLAIN it falls back to, and the semicolon after it by the wildcard; the two tokens as they were given are a sentence |
| `NestedTables.TablesAreReady` | MK_ComickBook/Pods/WCDBOptimizedSQLCipher/parse.c:1407-1456 | Another valid set of tables without self-derivation: empty rules before and within nested parentheses, and a fused rule of the start symbol |
| `NestedTables.NestingLosesAValue` | MK_ComickBook/Pods/WCDBOptimizedSQLCipher/parse.c:2269-2275 | On it, fifty open parentheses lose a value: the empty rule before the fiftieth overflows while the forty-ninth is on top, and after the parser is freed that value is neither used nor destroyed |
| `NestedTables.CloseDiscardsTheNext` | MK_ComickBook/Pods/WCDBOptimizedSQLCipher/parse.c:4089-4190 | On it, a closing parenthesis makes the call for any token after it accept and return without looking at the token, and there the two machines part |
| `NestedTables.FirstReductionWithoutMemory` | MK_ComickBook/Pods/WCDBOptimizedSQLCipher/parse.c:2269-2281 | On it, for any first token, the growing build without memory makes its first reduction and leaves the top index at -1 |
| `GrowingStack.GrowingParser.Alloc` | MK_ComickBook/Pods/WCDBOptimizedSQLCipher/parse.c:1516-1540 | The growing build starts with room for 100 entries, or for the one inside the object if there is no memory |
| `GrowingStack.GrowingParser.GrowStack` | MK_ComickBook/Pods/WCDBOptimizedSQLCipher/parse.c:1467-1492 | Growing keeps every entry and the index of the top and makes the room 2n+100; without memory nothing changes |
| `GrowingStack.GrowingParser.Shift` | MK_ComickBook/Pods/WCDBOptimizedSQLCipher/parse.c:1871-1883 | A shift grows the stack when it is full and overflows only without memory |
| `GrowingStack.GrowingParser.Reduce` | MK_ComickBook/Pods/WCDBOptimizedSQLCipher/parse.c:2269-2281 | An empty rule grows the stack when it is full and overflows only without memory; the top index falls below the base exactly if the stack is the one entry inside the object and there is no memory |
| `GrowingStack.GrowReachedSound` | MK_ComickBook/Pods/WCDBOptimizedSQLCipher/parse.c:4060-4201 | In the growing build, once its first allocation succeeded, at any depth and whatever memory there is after, each accept was of a sentence of the start symbol |
| `GrowingStack.GrowReachedConserves` | MK_ComickBook/Pods/WCDBOptimizedSQLCipher/parse.c:1669-1705 | In the growing build, likewise, every value pushed was used, destroyed or lost or is still on the stack |
| `GrowingStack.OverflowsIffRefused` | MK_ComickBook/Pods/WCDBOptimizedSQLCipher/parse.c:1467-1492 | Likewise, an overflow is reported if and only if a request for more room was refused |
| `GrowingStack.GrowStepLosesExactly` | MK_ComickBook/Pods/WCDBOptimizedSQLCipher/parse.c:2276-2279 | A round of the growing build loses the value on top exactly if it reduces by an empty rule, the stack is full and the request for room is refused, and never any other |
| `GrowingStack.GrowFreedBalances` | MK_ComickBook/Pods/WCDBOptimizedSQLCipher/parse.c:1690-1705 | Once the parser of that build is freed, a value was used or destroyed as often as it was pushed, if and only if no call began where it had to lose that value |
| `GrowingStack.GrowCall` | MK_ComickBook/Pods/WCDBOptimizedSQLCipher/parse.c:4089-4190 | Each call of the growing build returns, its stack within the room at every time |
| `GrowingStack.GrowingParser.Round` | MK_ComickBook/Pods/WCDBOptimizedSQLCipher/parse.c:4089-4190 | One round of the loop of the object does the abstract round and stops when that ends the call |
| `GrowingStack.GrowingParser.Feed` | MK_ComickBook/Pods/WCDBOptimizedSQLCipher/parse.c:4060-4201 | The whole call of the object terminates and ends in the configuration of the abstract call |
| `GrowingStack.StepsAgree` | MK_ComickBook/Pods/WCDBOptimizedSQLCipher/parse.c:1871-1883 | Round for round the growing build does what the fixed build does, up to an overflow of the latter, or always if memory is never to be had again |
| `GrowingStack.RunsAgree` | MK_ComickBook/Pods/WCDBOptimizedSQLCipher/parse.c:1467-1492 | Whole runs of the growing build end in the configuration of the fixed build and without having grown, for every run that does not overflow the latter, and for every run at all if memory is never to be had again |
| `SelectChain.FlagsOfBuild` | MK_ComickBook/Pods/WCDBOptimizedSQLCipher/parse.c:2774-2795 | Over any sequence of the actions: SF_MultiValue is never below the head, and is on the head exactly when the whole text is one VALUES clause of two rows or more |
| `SelectChain.ValuesOfBuild` | MK_ComickBook/Pods/WCDBOptimizedSQLCipher/parse.c:2774-2795 | Over any sequence of the actions: SF_Values is on exactly the terms that are rows of a VALUES clause |
| `SelectChain.WithBits` | MK_ComickBook/Pods/WCDBOptimizedSQLCipher/parse.c:96-96 | Setting flags sets all of them and leaves every other bit |
| `SelectChain.WithoutBits` | MK_ComickBook/Pods/WCDBOptimizedSQLCipher/parse.c:2719-2720 | Clearing flags clears all of them and leaves every other bit |
| `SelectChain.QuantifierTold` | MK_ComickBook/Pods/WCDBOptimizedSQLCipher/parse.c:2796-2804 | DISTINCT sets the first bit and ALL the second, and a SELECT without either sets neither |
| `SelectChain.BuildKeepsMeaning` | MK_ComickBook/Pods/WCDBOptimizedSQLCipher/parse.c:2703-2726 | For every mix of UNION, UNION ALL, EXCEPT, INTERSECT and VALUES clauses, the chain evaluates to the left-associative meaning of the text |
| `SelectChain.CombineCounts` | MK_ComickBook/Pods/WCDBOptimizedSQLCipher/src/select.c:2266-2488 | What the operators mean, row by row: UNION ALL gives a row as often as both operands together, UNION once if it is in either, EXCEPT once if it is in the left and not in the right, INTERSECT once if it is in both |
| `SelectChain.BuildCounts` | MK_ComickBook/Pods/WCDBOptimizedSQLCipher/parse.c:2703-2735 | So for the chain built for any compound, told from the chains of its two parts |
| `SelectChain.ExceptAndIntersect` | MK_ComickBook/Pods/WCDBOptimizedSQLCipher/src/select.c:2266-2488 | EXCEPT and INTERSECT with the same right operand share out the rows of the left one, each once |
| `CompoundCode.MultiSelect` | MK_ComickBook/Pods/WCDBOptimizedSQLCipher/src/select.c:2191-2488 | What is generated for a chain gives the rows that the chain means, for every mix of operators: through temporary tables that keep a row once, one table for a run of UNION and EXCEPT however long, two for INTERSECT, none for UNION ALL |
| `CompoundCode.ThroughTable` | MK_ComickBook/Pods/WCDBOptimizedSQLCipher/src/select.c:2310-2409 | UNION and EXCEPT with the rows of the terms before in a table and those of the term put in or taken out, where a table that the result is to go to anyway is used for it |
| `CompoundCode.ThroughTwoTables` | MK_ComickBook/Pods/WCDBOptimizedSQLCipher/src/select.c:2410-2487 | INTERSECT as the rows of one table that are found in the other |
| `CompoundCode.RowsOfText` | MK_ComickBook/Pods/WCDBOptimizedSQLCipher/src/select.c:2191-2488 | From the text by way of its chain to the rows: those that the text means |
| `SelectChain.JoinedDirectlyResult` | MK_ComickBook/Pods/WCDBOptimizedSQLCipher/parse.c:2709-2716 | Joining a multi-row VALUES clause without the FROM subquery would keep its last row only |
| `SelectChain.FlagMustGo` | MK_ComickBook/Pods/WCDBOptimizedSQLCipher/parse.c:2719-2720 | And with the flag left on a joined head, VALUES (x) EXCEPT VALUES (x) would give x twice instead of nothing |
| `SelectChain.RowBagIsMultiset` | MK_ComickBook/Pods/WCDBOptimizedSQLCipher/parse.c:2774-2795 | The rows of a VALUES clause count as often as they are written |
| `SelectObjects.DoubleLink` | MK_ComickBook/Pods/WCDBOptimizedSQLCipher/parse.c:90-105 | Every pNext points back to the element whose pPrior led to it, the head has none, all elements have bit 0x100 set and every other bit as before, their order stays, and the error is raised exactly when a positive limit is exceeded and the head is not flagged as multi-row |
| `SelectObjects.ValuesFirst` | MK_ComickBook/Pods/WCDBOptimizedSQLCipher/parse.c:2774-2780 | The first row becomes a chain of one object |
| `SelectObjects.ValuesNext` | MK_ComickBook/Pods/WCDBOptimizedSQLCipher/parse.c:2782-2794 | A further row becomes the head, takes over the flag and keeps the objects before it |
| `SelectObjects.Join` | MK_ComickBook/Pods/WCDBOptimizedSQLCipher/parse.c:2703-2726 | The right-hand side, wrapped as a subquery if it has several terms, becomes the head above the left-hand side; the wrapped chain is doubly linked and its limit reported |
| `SelectObjects.LimitSparesRowLists` | MK_ComickBook/Pods/WCDBOptimizedSQLCipher/parse.c:98-102 | Over every text, the limit error means that it is a compound, not one VALUES clause, with more terms than a positive limit |
| `SelectObjects.MultiSelectValues` | MK_ComickBook/Pods/WCDBOptimizedSQLCipher/src/select.c:2128-2158 | Down the pPrior links and up the pNext links every row is coded once, in order, each cut off from the rows before it while it is coded and linked again after; the chain is left as it was and the asserts hold |
| `SelectObjects.RowsOfTerms` | MK_ComickBook/Pods/WCDBOptimizedSQLCipher/src/select.c:2128-2158 | The rows met by that walk are the result of the chain, counted as often as they are written |
| `ExprRewrites.IsKeepsMeaning` | MK_ComickBook/Pods/WCDBOptimizedSQLCipher/parse.c:183-190 | IS and IS NOT, turned into a unary test when the right-hand side is NULL, evaluate as the comparison does |
| `ValueLaws.AndByTable` | MK_ComickBook/Pods/WCDBOptimizedSQLCipher/src/vdbe.c:2265-2290 | AND is what the And opcode reads in its table of nine results |
| `ValueLaws.LogicByDegree` | MK_ComickBook/Pods/WCDBOptimizedSQLCipher/src/vdbe.c:2245-2320 | In the order false, unknown, true, AND is the lesser of its operands and NOT turns the order round |
| `ValueLaws.InByDegree` | MK_ComickBook/Pods/WCDBOptimizedSQLCipher/src/expr.c:2660-2664 | IN is the OR of its comparisons: false of an empty list, and with one more item the greater of what it was and the comparison with that item |
| `ValueLaws.InByTable` | MK_ComickBook/Pods/WCDBOptimizedSQLCipher/src/vdbe.c:2266-2290 | With one item more, IN is what the Or opcode reads in its table for what it was and that comparison |
| `ValueLaws.InByComparisons` | MK_ComickBook/Pods/WCDBOptimizedSQLCipher/src/expr.c:2754-2793 | The comparisons that are coded one after another, with a register that turns NULL, give what IN means for any list that is not empty |
| `ValueLaws.NotInHolds` | MK_ComickBook/Pods/WCDBOptimizedSQLCipher/src/expr.c:2660-2664 | NOT IN is true if and only if every comparison is false |
| `ValueLaws.NullInTheWay` | MK_ComickBook/Pods/WCDBOptimizedSQLCipher/src/expr.c:2660-2664 | 5 IN (1, NULL) and 5 NOT IN (1, NULL) are NULL, 5 IN (5, NULL) is 1, NULL IN () is 0 |
| `ValueLaws.ComparedDegree` | MK_ComickBook/Pods/WCDBOptimizedSQLCipher/src/vdbe.c:1991-2030 | A comparison is unknown if and only if an operand is NULL |
| `ValueLaws.IsByDegree` | MK_ComickBook/Pods/WCDBOptimizedSQLCipher/src/vdbe.c:1910-1914 | IS is never unknown, takes NULL for equal to NULL alone and is = otherwise |
| `ValueLaws.AffinityByPair` | MK_ComickBook/Pods/WCDBOptimizedSQLCipher/src/expr.c:196-217 | The affinity of a comparison does not depend on the order of the operands, is numeric exactly if one is, and text exactly for a text one beside one that is no column |
| `ValueLaws.NumberOfText` | MK_ComickBook/Pods/WCDBOptimizedSQLCipher/src/vdbe.c:2056-2074 | A number is read back from its text, so that no two have one text |
| `ValueLaws.TightNumber` | MK_ComickBook/Pods/WCDBOptimizedSQLCipher/src/vdbe.c:2039-2048 | A text without spaces at its ends is a number exactly if it is digits with at most one sign before them, and then that number |
| `ValueLaws.SpacesDoNotCount` | MK_ComickBook/Pods/WCDBOptimizedSQLCipher/src/vdbe.c:2039-2048 | Spaces before and after change nothing |
| `ValueLaws.SameNumbers` | MK_ComickBook/Pods/WCDBOptimizedSQLCipher/src/vdbe.c:2049-2055 | Two numbers are equal exactly if they are the same, by any affinity, as texts too unless a collation takes different digits for equal |
| `ValueLaws.NumberAgainstText` | MK_ComickBook/Pods/WCDBOptimizedSQLCipher/src/vdbe.c:2037-2074 | A number and a text are equal as numbers by numeric affinity, as texts by text affinity, and else never |
| `ValueLaws.TextAgainstText` | MK_ComickBook/Pods/WCDBOptimizedSQLCipher/src/vdbe.c:2037-2077 | Two texts are equal by the collation, unless the comparison is numeric and one of them is a number: then if both are the same number |
| `ValueLaws.BinCollTakes` | MK_ComickBook/Pods/WCDBOptimizedSQLCipher/src/main.c:844-885 | BINARY takes texts for equal exactly if they are the same, RTRIM exactly if they are once the spaces at their ends are gone |
| `ValueLaws.StoredIsPrepared` | MK_ComickBook/Pods/WCDBOptimizedSQLCipher/src/vdbe.c:287-325 | A column can hold exactly what its affinity leaves as it is, and that is what it makes of any value |
| `ExprRewrites.AndKeepsMeaning` | MK_ComickBook/Pods/WCDBOptimizedSQLCipher/src/expr.c:883-906 | Folding AND with a constant 0 into 0 keeps the three-valued result |
| `ExprRewrites.SingleItemKeptExactly` | MK_ComickBook/Pods/WCDBOptimizedSQLCipher/parse.c:3404-3431 | For columns and aliases of columns under any number of COLLATE or likely(), = with a marked right-hand side gives what IN (x) means for all values the columns can hold, if and only if no COLLATE, likely() or alias hides from the mark an affinity that overrides that of the left-hand side, and no alias lends its collation to a left-hand side without one |
| `ExprRewrites.InKeepsMeaning` | MK_ComickBook/Pods/WCDBOptimizedSQLCipher/parse.c:3392-3444 | IN and NOT IN over a list of any length, with NULLs anywhere, evaluate to what IN means, for any operands and all values their columns can hold, unless a single item is one of the above: a constant for the empty list, = or <> for one item, IN under an optional NOT otherwise |
| `ExprRewrites.HiddenMarkChanges` | MK_ComickBook/Pods/WCDBOptimizedSQLCipher/src/expr.c:45-48 | Otherwise two storable values that go wrong: 1 and text 1, text 01 and 1, or text 1 and 1, by the pair of affinities |
| `ExprRewrites.TakenCollationChanges` | MK_ComickBook/Pods/WCDBOptimizedSQLCipher/src/resolve.c:92-109 | And two texts that go wrong when an alias lends its collation |
| `ExprRewrites.CaseItemsDecode` | MK_ComickBook/Pods/WCDBOptimizedSQLCipher/parse.c:3489-3518 | The flat list of a CASE gives back its arms and its ELSE, which is there exactly for an odd length |
| `ExprTexts.BuildInteger` | MK_ComickBook/Pods/WCDBOptimizedSQLCipher/src/expr.c:883-906 | A tree is the constant zero that folds an AND exactly if the text says so, through parentheses, signs, an empty IN and a folded AND |
| `ExprTexts.BuildAffinity` | MK_ComickBook/Pods/WCDBOptimizedSQLCipher/src/expr.c:43-74 | The tree of every text has the affinity that the text says, which is that of a column under parentheses, COLLATE and likely() |
| `ExprTexts.BuildCollates` | MK_ComickBook/Pods/WCDBOptimizedSQLCipher/src/expr.c:131-175 | The tree of every text has the COLLATE flag and the collation that the text says once the operators are taken out that the actions forget: all in the left-hand side of IN (), in an AND with a constant 0 and in the item of IN (x) |
| `TextMeanings.FormsAgree` | MK_ComickBook/Pods/WCDBOptimizedSQLCipher/src/expr.c:3801-3808 | CASE x WHEN e means what CASE WHEN x = e means, as the comment there has it, for any arms |
| `TextMeanings.CaseKeepsMeaning` | MK_ComickBook/Pods/WCDBOptimizedSQLCipher/src/expr.c:3831-3884 | Walking the flat list two by two evaluates to the first arm that is true, by = if there is a base, else the ELSE, else NULL, if each WHEN is compared to the base as = would |
| `TextMeanings.BuildKeepsMeaning` | MK_ComickBook/Pods/WCDBOptimizedSQLCipher/parse.c:3338-3518 | Every text built from NOT, signs, NULL tests, comparisons, AND, IS, IN, CASE, COLLATE and likely() evaluates to its meaning, told from the text alone, for all values its columns can hold, if no comparison is by another collation than the text says, no one-item IN hides its mark, and no base of a CASE its affinity or collation; also for nested rewrites |
| `OrdinaryTexts.OrdinaryKeepsMeaning` | MK_ComickBook/Pods/WCDBOptimizedSQLCipher/parse.c:3338-3518 | Every text without COLLATE, likely(), an alias and a plus sign evaluates to its meaning, for any columns and all values they can hold |
| `OrdinaryTexts.NotInTree` | MK_ComickBook/Pods/WCDBOptimizedSQLCipher/parse.c:3392-3444 | The tree of x NOT IN (..), whatever became of it, holds if and only if the comparison with every item is false, if its comparisons are by the affinities and collations that the text says (the condition of `TextMeanings.BuildKeepsMeaning`) |
| `CaseBases.CaseKeptExactly` | MK_ComickBook/Pods/WCDBOptimizedSQLCipher/src/expr.c:3268-3273 | For a column as WHEN and a column under COLLATE, likely() and plus signs as base, CASE compares as = does for all values if and only if no COLLATE or likely() hides an affinity that overrides that of the WHEN, and no plus a collation that differs from that of the WHEN |
| `CaseBases.CaseIntegerKeptExactly` | MK_ComickBook/Pods/WCDBOptimizedSQLCipher/src/expr.c:3268-3273 | The same for a constant as WHEN: if and only if the base is no TEXT column under COLLATE or likely(), nor one whose collation is another than the text says |
| `CaseBases.CoveredBaseChanges` | MK_ComickBook/Pods/WCDBOptimizedSQLCipher/src/expr.c:3831-3839 | A value that goes wrong: CASE b COLLATE c WHEN 1 THEN 1 ELSE 0 END for a TEXT column b that holds 1 gives 0, should give 1, and gives 1 when written CASE WHEN b COLLATE c = 1 |
| `CaseBases.PlusChanges` | MK_ComickBook/Pods/WCDBOptimizedSQLCipher/src/expr.c:3831-3839 | Values that go wrong under a plus: CASE +b WHEN d is compared by the collation of d instead of that of b |
| `LostCollations.ConstantKeptExactly` | MK_ComickBook/Pods/WCDBOptimizedSQLCipher/parse.c:3394-3403 | For any text that becomes a constant v, as IN () with any left-hand side and AND 0 do, compared to a column by =, <>, IS or IS NOT on either side: right for all values if and only if the column is no TEXT column, or the collation used and the one the text says agree on the text of v |
| `LostCollations.ConstantForgets` | MK_ComickBook/Pods/WCDBOptimizedSQLCipher/src/expr.c:883-906 | With a COLLATE in that text and none at the column, these two are that of the column and that of the operator |
| `LostCollations.ItemKeptExactly` | MK_ComickBook/Pods/WCDBOptimizedSQLCipher/parse.c:3427-3431 | For x [NOT] IN (y) over columns, compared to another column likewise: right for all values if and only if that is no TEXT column, or the two collations agree on 0 and 1 |
| `LostCollations.ItemForgets` | MK_ComickBook/Pods/WCDBOptimizedSQLCipher/parse.c:3427-3431 | With a COLLATE at y and nowhere else, these two are that of the column and that of the operator |
| `LostCollations.DigitsKeptExactly` | MK_ComickBook/Pods/WCDBOptimizedSQLCipher/parse.c:3392-3444 | In general, for any text whose value is an integer or NULL and which is right itself, compared to a column it does not mention: if and only if the column is no TEXT column, or the two collations agree on every integer that the text can yield |
| `LostCollations.LostCollateChanges` | MK_ComickBook/Pods/WCDBOptimizedSQLCipher/parse.c:3394-3431 | Values that go wrong in all three forms: with RTRIM for c and b the text of a 0 and a space, (a COLLATE c IN ()) = b, (a COLLATE c AND 0) = b and (a IN (d COLLATE c)) = b should be true and are false |
| `ExprNodes.BinaryToUnaryIfNull` | MK_ComickBook/Pods/WCDBOptimizedSQLCipher/parse.c:183-190 | The node changes in place to the unary operator and loses its right-hand side exactly if that is NULL |
| `ExprNodes.ReduceIs` | MK_ComickBook/Pods/WCDBOptimizedSQLCipher/parse.c:3338-3351 | The nodes that IS and IS NOT leave are the tree that keeps the meaning |
| `ExprNodes.MarkGeneric` | MK_ComickBook/Pods/WCDBOptimizedSQLCipher/parse.c:3427-3430 | The in-place change of two flags turns the nodes of the item into the marked tree and leaves those below alone |
| `ExprNodes.ListCollate` | MK_ComickBook/Pods/WCDBOptimizedSQLCipher/src/expr.c:1638-1649 | A list has the COLLATE flag if and only if one of its items has |
| `ExprNodes.ReduceIn` | MK_ComickBook/Pods/WCDBOptimizedSQLCipher/parse.c:3392-3444 | The nodes that IN and NOT IN leave, for a list of any length, are the tree that keeps the meaning |
| `ExprNodes.ShowsOne` | MK_ComickBook/Pods/WCDBOptimizedSQLCipher/parse.c:3392-3444 | Nodes are one tree at most, so that these contracts leave no choice |
| `SourceSpans.SpanCovers` | MK_ComickBook/Pods/WCDBOptimizedSQLCipher/parse.c:3135-3501 | The span computed rule by rule runs from the first token of the phrase to the last before the arguments of a table at its very end |
| `SourceSpans.SpanExact` | MK_ComickBook/Pods/WCDBOptimizedSQLCipher/parse.c:3466-3476 | The span is the whole phrase if and only if the phrase does not end in IN and a table with arguments, and otherwise it ends before those arguments |
| `SourceSpans.SpanSet` | MK_ComickBook/Pods/WCDBOptimizedSQLCipher/parse.c:112-115 | Written over its own first token the span comes out right; written over its last token it would not |
| `SourceSpans.SpanExpr` | MK_ComickBook/Pods/WCDBOptimizedSQLCipher/parse.c:121-142 | The token is passed by value, so its slot may be the result |
| `SourceSpans.SpanBinaryExpr` | MK_ComickBook/Pods/WCDBOptimizedSQLCipher/parse.c:148-156 | The result takes the start of the left and the end of the right operand |
| `SourceSpans.SpanUnaryPostfix` | MK_ComickBook/Pods/WCDBOptimizedSQLCipher/parse.c:171-179 | The result ends with the operator |
| `SourceSpans.SpanUnaryPrefix` | MK_ComickBook/Pods/WCDBOptimizedSQLCipher/parse.c:196-206 | The result may take the place of its operator, because the address is read before the slot is overwritten |
| `SourceSpans.ReduceParentheses` | MK_ComickBook/Pods/WCDBOptimizedSQLCipher/parse.c:3135-3138 | The span over the opening parenthesis, written in place, is that of the whole phrase, and the node is that of the inner expression |
| `SourceSpans.ReduceRegister` | MK_ComickBook/Pods/WCDBOptimizedSQLCipher/parse.c:3187-3208 | With the one token saved first, the span written over it in place is that of the token |
| `SourceSpans.ReduceCurrentTime` | MK_ComickBook/Pods/WCDBOptimizedSQLCipher/parse.c:3251-3258 | With the result built aside and copied, the span of a token that is both ends is that of the token |
| `SourceSpans.ReduceInTable` | MK_ComickBook/Pods/WCDBOptimizedSQLCipher/parse.c:3466-3476 | The end is that of the database name if there is one, else of the table name |
| `ForeignKeyActions.RefArgsPacked` | MK_ComickBook/Pods/WCDBOptimizedSQLCipher/parse.c:2527-2554 | Folding the clauses gives exactly the two codes, side by side |
| `ForeignKeyActions.NameOfCode` | MK_ComickBook/Pods/WCDBOptimizedSQLCipher/src/pragma.c:241-252 | The code of an action is listed by the words that the action is written with, and no two actions have one code |
| `ForeignKeyActions.LastActionsWin` | MK_ComickBook/Pods/WCDBOptimizedSQLCipher/src/build.c:2693-2694 | Taken apart, the low byte is the last ON DELETE action and the next the last ON UPDATE action, NO ACTION by default, each listed by PRAGMA foreign_key_list in the words it was written with; MATCH and ON INSERT change nothing |
| `TriggerSteps.FirstStep` | MK_ComickBook/Pods/WCDBOptimizedSQLCipher/parse.c:3686-3691 | The first step is its own last |
| `TriggerSteps.NextStep` | MK_ComickBook/Pods/WCDBOptimizedSQLCipher/parse.c:3678-3683 | Appending behind pLast keeps the order of the text and leaves the list ended |
| `TriggerSteps.Statements` | MK_ComickBook/Pods/WCDBOptimizedSQLCipher/src/trigger.c:690-690 | Following pNext from the first step meets every statement once, in order |
| `KeywordRows.HashOfKeyword` | MK_ComickBook/Pods/WCDBOptimizedSQLCipher/keywordhash.h:60-71 | The hash of each keyword, in lower case, is that of the chain it was put on |
| `KeywordRows.AllSpelled` | MK_ComickBook/Pods/WCDBOptimizedSQLCipher/keywordhash.h:27-59 | Each offset and length cuts the keyword out of the overlapping text |
| `KeywordRows.AllSized` | MK_ComickBook/Pods/WCDBOptimizedSQLCipher/keywordhash.h:84-107 | Every keyword has 2 to 17 letters and ends within the 553 bytes |
| `TokenNames.NameOf` | MK_ComickBook/Pods/WCDBOptimizedSQLCipher/parse.c:1055-1091 | No two of the 143 tokens have one name |
| `TokenNames.AllNamed` | MK_ComickBook/Pods/WCDBOptimizedSQLCipher/keywordhash.h:108-133 | The code of every keyword is that of the token called as the keyword, JOIN_KW, LIKE_KW or CTIME_KW for the words that share one of these, TEMP for TEMPORARY, COLUMNKW for COLUMN and AUTOINCR for AUTOINCREMENT |
| `TokenNames.OneCodeFor` | MK_ComickBook/Pods/WCDBOptimizedSQLCipher/parse.c:1055-1091 | So there is one code that is right for a word |
| `KeywordLookup.OnOwnChain` | MK_ComickBook/Pods/WCDBOptimizedSQLCipher/keywordhash.h:60-83 | Every keyword lies on the chain of its own hash value |
| `KeywordLookup.SpelledHash` | MK_ComickBook/Pods/WCDBOptimizedSQLCipher/keywordhash.h:137-138 | A text that spells a keyword in any mix of cases has the hash of that keyword |
| `KeywordLookup.SpelledOnce` | MK_ComickBook/Pods/WCDBOptimizedSQLCipher/keywordhash.h:84-107 | No text spells two keywords |
| `KeywordLookup.CompareText` | MK_ComickBook/Pods/WCDBOptimizedSQLCipher/keywordhash.h:141-149 | The inner loop says whether the bytes with bit 5 cleared are the letters |
| `KeywordLookup.OutcomeIsRight` | MK_ComickBook/Pods/WCDBOptimizedSQLCipher/keywordhash.h:134-281 | The code that the linear search finds is that of the token called by the word, whatever word is spelled |
| `KeywordLookup.KeywordCode` | MK_ComickBook/Pods/WCDBOptimizedSQLCipher/keywordhash.h:134-281 | For every input the walk ends, stays in bounds, and stores the code of the token that is called by the word spelled, which a linear search over the 124 words finds, or stores nothing if no word is spelled |
| `KeywordLookup.Sqlite3KeywordCode` | MK_ComickBook/Pods/WCDBOptimizedSQLCipher/keywordhash.h:281-285 | The same, and words that are not keywords give the token called ID |
| `KeywordLookup.SearchesAgree` | MK_ComickBook/Pods/WCDBOptimizedSQLCipher/keywordhash.h:143-145 | The search with bit 5 cleared is the search without regard to case on the text with each DEL read as an underscore |
| `KeywordLookup.LookupIgnoresCase` | MK_ComickBook/Pods/WCDBOptimizedSQLCipher/keywordhash.h:143-145 | The two searches agree exactly unless the text has a DEL and spells a keyword once each is read that way |
| `KeywordLookup.DelIsTakenForUnderscore` | MK_ComickBook/Pods/WCDBOptimizedSQLCipher/keywordhash.h:143-145 | CURRENT, a DEL and DATE is taken for CURRENT_DATE, which a search without regard to case does not find |

## Left out

- The 1570 entries of the real action table: the proofs are about every valid set of tables, and the item sets that `Valid` asks for are not in the C file.
- Completeness of the parser (that every sentence is accepted, beyond that what is taken can be completed to one): it needs the construction of the tables, which is done by Lemon and is not part of this model.
- TextMeanings.BuildKeepsMeaning: its condition is enough for whole texts and not exact for them, since what changes below can still vanish above, as in a comparison under IS NULL. For one comparison, the conditions in `SingleItemKeptExactly`, `CaseKeptExactly`, `CaseIntegerKeptExactly`, `ConstantKeptExactly`, `ItemKeptExactly` and `DigitsKeptExactly` are exact. A forgotten COLLATE in the base or a WHEN of a CASE or in the left-hand side of an IN has the condition above only.
- ExprTrees: numbers are integers of any size and the number a text is has no fraction or exponent; INTEGER, REAL and NUMERIC affinity are one, as comparisons do not tell them apart; a collation is a parameter, and so is the number a text is for the boolean and minus operators; an alias is of a column, not of any other result; CAST, vectors, subqueries as operands, LIKE, BETWEEN and the other operators are left out.
- ExprNodes.ReduceIn: only IS and IN are modelled on nodes that change in place; AND and CASE, which allocate only, are on values in `ExprRewrites`; freeing a replaced operand is left out.
- ExprRewrites.AndKeepsMeaning: the folding of AND is switched off once the parse has reported an error, which is not modelled.
- SourceSpans.SpanCovers: the inner parts of a phrase are given by their tokens only, since no rule reads their spans.
- CompoundCode.MultiSelect: rows are a multiset, in no order, and two are one row if they are the same, not if collations take them for equal; ORDER BY, which is coded in another way, LIMIT, recursive queries and query flattening are left out.
- SelectObjects: a SELECT with a FROM clause is opaque; ORDER BY, LIMIT, the WITH clause, and the flag `hasCompound` are left out.
- SelectObjects.MultiSelectValues: collects each row where the original generates code for it; the error return of that and the row count are left out.
- TriggerSteps.Statements: collects the statements instead of coding them.
- GrowingStack.GrowReachedSound: starts from an allocation that succeeded, as do the other statements on runs of that build; where it failed, the base can be dropped by the first rule, as above, and the runs that come after are not modelled.
- GrowingStack.GrowingParser.GrowStack: the room is an unbounded integer, so overflow of the size in bytes is not modelled.
- KeywordLookup.KeywordCode: the returned length, which callers ignore, is left out.
- Running out of memory inside the actions; the callees that build nodes are plain constructors.
- YYERRORSYMBOL recovery (compiled out by YYNOERRORRECOVERY), tracing, the high-water mark of the stack, and the error message text.
- DDL, PRAGMA, VACUUM and ATTACH actions: one-line calls into other files.
- The Swift application: user interface, without a property that spans operations.
