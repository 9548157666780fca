/**
 * The filter editor: a controlled list of exclude rules. Each button builds
 * a new rule list from the current one and hands it to `onChange`; the
 * editor keeps no state of its own.
 */
module FilterEditor {
  import opened Wrappers
  import opened Filters
  import opened Seqs

  /** `value.rules ?? []`: a configuration read from elsewhere may lack its rules. */
  function RulesOf(rules: Option<seq<UserFilterRule>>): (r: seq<UserFilterRule>)
    ensures rules.None? ==> r == []
    ensures rules.Some? ==> r == rules.value
  {
    rules.GetOr([])
  }

  /** The rule `addRule` appends. */
  const NewRule: UserFilterRule := UserFilterRule(Exact, "", false)

  /** `addRule`. */
  function AddRule(rules: seq<UserFilterRule>): (r: seq<UserFilterRule>)
    ensures |r| == |rules| + 1 && r[..|rules|] == rules
    ensures r[|rules|].matchType == Exact && r[|rules|].pattern == "" && !r[|rules|].caseSensitive
  {
    rules + [NewRule]
  }

  /** `Partial<UserFilterRule>`: the fields a change supplies. */
  datatype RulePatch = RulePatch(matchType: Option<MatchType>, pattern: Option<string>, caseSensitive: Option<bool>)

  /** `{ ...rule, ...patch }`: a supplied field replaces the rule's, the others stay. */
  function Merge(rule: UserFilterRule, patch: RulePatch): UserFilterRule {
    UserFilterRule(patch.matchType.GetOr(rule.matchType), patch.pattern.GetOr(rule.pattern), patch.caseSensitive.GetOr(rule.caseSensitive))
  }

  /** Applying a patch twice is applying it once; the empty patch changes nothing. */
  lemma MergeIdempotent(rule: UserFilterRule, patch: RulePatch)
    ensures Merge(Merge(rule, patch), patch) == Merge(rule, patch)
    ensures Merge(rule, RulePatch(None, None, None)) == rule
  {
  }

  /** A patch that writes back every field of the old rule undoes any patch. */
  lemma MergeUndone(rule: UserFilterRule, patch: RulePatch)
    ensures Merge(Merge(rule, patch), RulePatch(Some(rule.matchType), Some(rule.pattern), Some(rule.caseSensitive))) == rule
  {
  }

  /** `updateRule(idx, patch)`, called for a rule on the list. */
  function UpdateRule(rules: seq<UserFilterRule>, idx: nat, patch: RulePatch): (r: seq<UserFilterRule>)
    requires idx < |rules|
    ensures |r| == |rules|
    ensures forall i :: 0 <= i < |r| ==> r[i] == if i == idx then Merge(rules[idx], patch) else rules[i]
  {
    rules[idx := Merge(rules[idx], patch)]
  }

  /** `removeRule(idx)`: the `filter` drops position `idx` and nothing else. */
  function RemoveRule(rules: seq<UserFilterRule>, idx: int): (r: seq<UserFilterRule>)
    ensures 0 <= idx < |rules| ==> |r| == |rules| - 1
    ensures 0 <= idx < |rules| ==> forall i :: 0 <= i < |r| ==> r[i] == if i < idx then rules[i] else rules[i + 1]
    ensures !(0 <= idx < |rules|) ==> r == rules
  {
    if 0 <= idx < |rules| then rules[..idx] + rules[idx + 1..] else rules
  }

  /** Removing loses exactly the removed rule. */
  lemma RemoveRulePermutes(rules: seq<UserFilterRule>, idx: nat)
    requires idx < |rules|
    ensures multiset(RemoveRule(rules, idx)) + multiset{rules[idx]} == multiset(rules)
  {
    assert rules == rules[..idx] + [rules[idx]] + rules[idx + 1..];
  }

  /** Removing the rule just added gives the list back. */
  lemma RemoveUndoesAdd(rules: seq<UserFilterRule>)
    ensures RemoveRule(AddRule(rules), |rules|) == rules
  {
  }

  /** `clearAll`. */
  function ClearAll(): (r: seq<UserFilterRule>)
    ensures |r| == 0
  {
    []
  }

  // ---------------------------------------------------------------------
  // What the edits do to the compiled filter
  // ---------------------------------------------------------------------

  /** The lookaheads of two lists one after the other. */
  lemma {:induction false} LookaheadsAppend(a: seq<UserFilterRule>, b: seq<UserFilterRule>)
    ensures Lookaheads(a + b) == Lookaheads(a) + Lookaheads(b)
    decreases |b|
  {
    if b != [] {
      var init := b[..|b| - 1];
      assert (a + b)[..|a + b| - 1] == a + init;
      assert (a + b)[|a + b| - 1] == b[|b| - 1];
      LookaheadsAppend(a, init);
    } else {
      assert a + b == a;
    }
  }

  /** A rule with an empty pattern contributes no lookahead. */
  lemma LookaheadsOfEmptyRule(rule: UserFilterRule)
    requires rule.pattern == ""
    ensures Lookaheads([rule]) == []
  {
    assert [rule][..0] == [];
  }

  /** A new rule has an empty pattern, so adding one leaves the compiled filter as it was. */
  lemma AddRuleKeepsFilter(rules: seq<UserFilterRule>)
    ensures FilterRegexSource(AddRule(rules)) == FilterRegexSource(rules)
  {
    assert Lookaheads(AddRule(rules)) == Lookaheads(rules) by {
      LookaheadsAppend(rules, [NewRule]);
      LookaheadsOfEmptyRule(NewRule);
    }
  }

  /** Removing a rule with an empty pattern leaves the compiled filter as it was. */
  lemma RemoveEmptyRuleKeepsFilter(rules: seq<UserFilterRule>, idx: nat)
    requires idx < |rules| && rules[idx].pattern == ""
    ensures FilterRegexSource(RemoveRule(rules, idx)) == FilterRegexSource(rules)
  {
    var before := rules[..idx];
    var after := rules[idx + 1..];
    var mid := [rules[idx]];
    var l1 := Lookaheads(before);
    var l2 := Lookaheads(after);
    assert Lookaheads(mid + after) == l2 by {
      LookaheadsAppend(mid, after);
      LookaheadsOfEmptyRule(rules[idx]);
      assert [] + l2 == l2;
    }
    assert Lookaheads(rules) == l1 + l2 by {
      SplitAround(rules, idx);
      LookaheadsAppend(before, mid + after);
    }
    assert Lookaheads(RemoveRule(rules, idx)) == l1 + l2 by {
      assert RemoveRule(rules, idx) == before + after;
      LookaheadsAppend(before, after);
    }
  }

  /** After clearing, there is no filter expression. */
  lemma ClearAllRemovesFilter()
    ensures FilterRegexSource(ClearAll()).None?
  {
    FilterRegexNull(ClearAll());
  }
}
