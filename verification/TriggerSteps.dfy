/** The statements of a trigger: a list linked through pNext whose first element alone knows the last. */
module TriggerSteps {
  class TriggerStep {
    const statement: nat
    var pNext: TriggerStep?
    var pLast: TriggerStep?

    constructor (statement: nat)
      ensures this.statement == statement && pNext == null && pLast == null
    {
      this.statement := statement;
      pNext, pLast := null, null;
    }
  }

  ghost predicate LinkedTo(steps: seq<TriggerStep>, i: nat)
    requires i < |steps|
    reads steps[i]
  {
    steps[i].pNext == if i + 1 < |steps| then steps[i+1] else null
  }

  /** The steps in the order of the text. */
  ghost predicate Queue(steps: seq<TriggerStep>)
    reads steps
  {
    && steps != []
    && steps[0].pLast == steps[|steps|-1]
    && (forall i, j :: 0 <= i < j < |steps| ==> steps[i] != steps[j])
    && (forall i :: 0 <= i < |steps| ==> LinkedTo(steps, i))
  }

  /** trigger_cmd_list ::= trigger_cmd SEMI */
  method FirstStep(step: TriggerStep)
    requires step.pNext == null
    modifies step`pLast
    ensures Queue([step])
  {
    step.pLast := step;
    assert LinkedTo([step], 0);
  }

  /** trigger_cmd_list ::= trigger_cmd_list trigger_cmd SEMI: no walk along the list. */
  method NextStep(first: TriggerStep, step: TriggerStep, ghost steps: seq<TriggerStep>)
    requires Queue(steps) && first == steps[0] && step !in steps && step.pNext == null
    modifies {first, steps[|steps|-1]}
    ensures Queue(steps + [step])
  {
    first.pLast.pNext := step;
    first.pLast := step;
    ghost var all := steps + [step];
    forall i | 0 <= i < |all| ensures LinkedTo(all, i) {
      if i < |steps| {
        assert old(LinkedTo(steps, i));
      }
    }
  }

  /** The statements of a trigger, found by following pNext. */
  method Statements(first: TriggerStep, ghost steps: seq<TriggerStep>) returns (statements: seq<nat>)
    requires Queue(steps) && first == steps[0]
    ensures |statements| == |steps| && forall i :: 0 <= i < |steps| ==> statements[i] == steps[i].statement
  {
    statements := [];
    var p: TriggerStep? := first;
    while p != null
      invariant |statements| <= |steps|
      invariant if |statements| < |steps| then p == steps[|statements|] else p == null
      invariant forall i :: 0 <= i < |statements| ==> statements[i] == steps[i].statement
      decreases |steps| - |statements|
    {
      assert LinkedTo(steps, |statements|);
      statements := statements + [p.statement];
      p := p.pNext;
    }
  }
}
