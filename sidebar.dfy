/**
 * The threshold-rule editor (components/Sidebar.tsx): a list of rules that the user
 * appends to, edits in place by position and deletes from by position.
 */
module Sidebar {
  import opened Types
  import Lists

  /** The rule `addRule` appends: red, "less than", threshold 0. */
  const DefaultRule := ThresholdRule("#FF0000", "<", 0.0)

  /** `Partial<ThresholdRule>`: each field either given (Some) or absent (None). */
  datatype RulePatch = RulePatch(color: Option<string>, operator: Option<string>, value: Option<real>)

  /** The operator of a patch, if it has one, is one of the five. */
  predicate PatchValid(patch: RulePatch)
  {
    patch.operator.Some? ==> IsOperator(patch.operator.value)
  }

  /** `{ ...r, ...patch }`: the fields present in the patch win, the others keep their old value. */
  function Patched(r: ThresholdRule, patch: RulePatch): (p: ThresholdRule)
    ensures p.color == (if patch.color.Some? then patch.color.value else r.color)
    ensures p.operator == (if patch.operator.Some? then patch.operator.value else r.operator)
    ensures p.value == (if patch.value.Some? then patch.value.value else r.value)
    ensures patch == RulePatch(None, None, None) ==> p == r
  {
    var withColor := if patch.color.Some? then r.(color := patch.color.value) else r;
    var withOperator := if patch.operator.Some? then withColor.(operator := patch.operator.value) else withColor;
    if patch.value.Some? then withOperator.(value := patch.value.value) else withOperator
  }

  /** `[...rules, DefaultRule]` */
  function AddedRules(rules: seq<ThresholdRule>): (r: seq<ThresholdRule>)
    ensures |r| == |rules| + 1
    ensures r[..|rules|] == rules && r[|rules|] == DefaultRule
  {
    rules + [DefaultRule]
  }

  /** `rules.map((r, i) => i === index ? { ...r, ...patch } : r)` */
  function UpdatedRules(rules: seq<ThresholdRule>, index: int, patch: RulePatch): (r: seq<ThresholdRule>)
    ensures |r| == |rules|
    ensures forall j :: 0 <= j < |rules| && j != index ==> r[j] == rules[j]
    ensures 0 <= index < |rules| ==> r[index] == Patched(rules[index], patch)
    ensures !(0 <= index < |rules|) ==> r == rules
  {
    seq(|rules|, j requires 0 <= j < |rules| => if j == index then Patched(rules[j], patch) else rules[j])
  }

  /** `rules.filter((_, i) => i !== index)` */
  function DeletedRules(rules: seq<ThresholdRule>, index: int): (r: seq<ThresholdRule>)
    ensures |r| == if 0 <= index < |rules| then |rules| - 1 else |rules|
  {
    Lists.Without(rules, index)
  }

  /** Deleting a rule at a valid position removes exactly that rule and keeps the rest in order. */
  lemma DeleteRuleSplices(rules: seq<ThresholdRule>, index: int)
    ensures 0 <= index < |rules| ==>
      |DeletedRules(rules, index)| == |rules| - 1 &&
      DeletedRules(rules, index) == rules[..index] + rules[index + 1..]
    ensures !(0 <= index < |rules|) ==> DeletedRules(rules, index) == rules
  {
    Lists.WithoutIsSplice(rules, index);
  }

  /** No edit can bring an operator outside the five into a list whose operators are all valid. */
  lemma EditsKeepOperators(rules: seq<ThresholdRule>, index: int, patch: RulePatch)
    requires OperatorsValid(rules)
    requires PatchValid(patch)
    ensures OperatorsValid(AddedRules(rules))
    ensures OperatorsValid(UpdatedRules(rules, index, patch))
    ensures OperatorsValid(DeletedRules(rules, index))
  {
    var added := AddedRules(rules);
    assert forall k :: 0 <= k < |rules| ==> added[k] == rules[k];
    Lists.WithoutIsSplice(rules, index);
    if 0 <= index < |rules| {
      var d := DeletedRules(rules, index);
      assert forall k :: 0 <= k < |d| ==> d[k] == rules[if k < index then k else k + 1];
    }
  }

  /** The editor's state: the `rules` list it owns. */
  class ThresholdSidebar {
    var rules: seq<ThresholdRule>

    ghost predicate Valid()
      reads this
    {
      OperatorsValid(rules)
    }

    constructor ()
      ensures Valid() && rules == []
    {
      rules := [];
    }

    method AddRule()
      requires Valid()
      modifies this
      ensures Valid()
      ensures rules == AddedRules(old(rules))
    {
      EditsKeepOperators(rules, 0, RulePatch(None, None, None));
      rules := AddedRules(rules);
    }

    method UpdateRule(index: int, patch: RulePatch)
      requires Valid() && PatchValid(patch)
      modifies this
      ensures Valid()
      ensures rules == UpdatedRules(old(rules), index, patch)
    {
      EditsKeepOperators(rules, index, patch);
      rules := UpdatedRules(rules, index, patch);
    }

    method DeleteRule(index: int)
      requires Valid()
      modifies this
      ensures Valid()
      ensures rules == DeletedRules(old(rules), index)
    {
      EditsKeepOperators(rules, index, RulePatch(None, None, None));
      rules := DeletedRules(rules, index);
    }
  }
}
