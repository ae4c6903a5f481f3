/** Categorisation rules: a description matches a rule when the rule's pattern
    occurs in it, ignoring case. The rules come sorted by priority, highest
    first, and the first match wins. */
module Rules {
  import opened Common

  datatype CategorizationRule = CategorizationRule(pattern: string, categoryId: string, priority: int)

  /** What `matchRule` returns for a match: the winning rule's category and pattern. */
  datatype RuleMatch = RuleMatch(categoryId: string, pattern: string)

  /** The rule's lowercased pattern occurs in the lowercased description. */
  predicate RuleMatches(rule: CategorizationRule, description: string) {
    Contains(Lower(description), Lower(rule.pattern))
  }

  /** `matchRule`: the first rule, in list order, that matches, or none. */
  function MatchRule(rules: seq<CategorizationRule>, description: string): (r: Option<RuleMatch>)
    ensures r.Some? ==> exists i :: 0 <= i < |rules| && r.value == RuleMatch(rules[i].categoryId, rules[i].pattern)
  {
    if rules == [] then None
    else if RuleMatches(rules[0], description) then Some(RuleMatch(rules[0].categoryId, rules[0].pattern))
    else MatchRule(rules[1..], description)
  }

  /** The result is exactly the first matching rule: none when no rule matches
      (in particular for an empty list), and otherwise the rule at the least
      matching index, with its category and pattern taken together. */
  lemma {:induction false} MatchRuleIsFirst(rules: seq<CategorizationRule>, description: string)
    ensures MatchRule(rules, description).None? <==> forall i :: 0 <= i < |rules| ==> !RuleMatches(rules[i], description)
    ensures MatchRule(rules, description).Some? ==>
      exists i :: 0 <= i < |rules| && RuleMatches(rules[i], description)
        && (forall j :: 0 <= j < i ==> !RuleMatches(rules[j], description))
        && MatchRule(rules, description).value == RuleMatch(rules[i].categoryId, rules[i].pattern)
  {
    if rules != [] && !RuleMatches(rules[0], description) {
      var tail := rules[1..];
      MatchRuleIsFirst(tail, description);
      forall i | 1 <= i < |rules| ensures rules[i] == tail[i - 1] { }
      if MatchRule(tail, description).Some? {
        var i :| 0 <= i < |tail| && RuleMatches(tail[i], description)
          && (forall j :: 0 <= j < i ==> !RuleMatches(tail[j], description))
          && MatchRule(tail, description).value == RuleMatch(tail[i].categoryId, tail[i].pattern);
        forall j | 0 <= j < i + 1 ensures !RuleMatches(rules[j], description) {
          if j > 0 { assert rules[j] == tail[j - 1]; }
        }
      }
    } else if rules != [] {
      assert RuleMatches(rules[0], description);
    }
  }

  /** A matching rule shadows every rule after it: whatever follows `first`
      does not change the result once `first` contains a match. */
  lemma {:induction false} EarlierRuleWins(first: seq<CategorizationRule>, rest: seq<CategorizationRule>, description: string)
    requires MatchRule(first, description).Some?
    ensures MatchRule(first + rest, description) == MatchRule(first, description)
    decreases |first|
  {
    var all := first + rest;
    assert all[0] == first[0];
    if !RuleMatches(first[0], description) {
      assert all[1..] == first[1..] + rest;
      EarlierRuleWins(first[1..], rest, description);
    }
  }

  /** Matching ignores case: a description and its lowercase match the same rule. */
  lemma {:induction false} MatchRuleIgnoresCase(rules: seq<CategorizationRule>, description: string)
    ensures MatchRule(rules, Lower(description)) == MatchRule(rules, description)
    decreases |rules|
  {
    LowerIdempotent(description);
    if rules != [] {
      MatchRuleIgnoresCase(rules[1..], description);
    }
  }

  /** Case is ignored beyond ASCII as well: the rule "café" matches the
      description "CAFÉ 24". */
  lemma AccentedCapitalsMatch()
    ensures MatchRule([CategorizationRule("café", "food", 0)], "CAFÉ 24") == Some(RuleMatch("food", "café"))
  {
    var low := Lower("CAFÉ 24");
    assert low[0] == 'c' && low[1] == 'a' && low[2] == 'f' && low[3] == 'é';
    assert low[4] == ' ' && low[5] == '2' && low[6] == '4';
    assert low == "café 24";
    var pattern := Lower("café");
    assert pattern[0] == 'c' && pattern[1] == 'a' && pattern[2] == 'f' && pattern[3] == 'é';
    assert pattern == "café";
    assert pattern <= low[0..];
  }

  /** The same holds for Cyrillic: the rule "МАГАЗИН" matches "магазин". */
  lemma CyrillicCapitalsMatch()
    ensures MatchRule([CategorizationRule("МАГАЗИН", "shop", 0)], "магазин") == Some(RuleMatch("shop", "МАГАЗИН"))
  {
    var low := Lower("магазин");
    assert low[0] == 'м' && low[1] == 'а' && low[2] == 'г' && low[3] == 'а';
    assert low[4] == 'з' && low[5] == 'и' && low[6] == 'н';
    assert low == "магазин";
    var pattern := Lower("МАГАЗИН");
    assert pattern[0] == 'м' && pattern[1] == 'а' && pattern[2] == 'г' && pattern[3] == 'а';
    assert pattern[4] == 'з' && pattern[5] == 'и' && pattern[6] == 'н';
    assert pattern == "магазин";
    assert pattern <= low[0..];
  }
}
