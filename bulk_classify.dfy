/** The bulk classification script: every uncategorized, non-overridden
    transaction that is not a transfer is classified, one household at a time.
    Transactions are grouped by lowercased description so that each distinct
    description is classified once. Groups matching a rule take the rule's
    category; the others are sent to the model in batches of 50 under
    synthetic ids d0, d1, ..., and every answer naming a known category and a
    known synthetic id updates the whole group and records a rule for its
    description. In dry-run mode nothing is written. The queries' results, the
    model's answers and the failing rule writes are inputs. */
module BulkClassify {
  import opened Common
  import opened Db
  import opened Rules
  import opened Direction
  import opened Grouping
  import opened Ai
  import opened Classify

  const BatchSize: nat := 50

  /** A row of the uncategorized-transactions query. */
  datatype UncategorizedTx = UncategorizedTx(id: string, householdId: string, description: string, amount: string, txType: TxType)

  /** The transactions sharing one lowercased description: the first-seen
      original text, every id, and the first transaction's amount and type. */
  datatype DescriptionGroup = DescriptionGroup(original: string, txnIds: seq<string>, representativeAmount: string, mostCommonType: TxType)

  /** An unmatched group under its synthetic id. */
  datatype Entry = Entry(synthId: string, group: DescriptionGroup)

  /** One element of the model's structured answer. */
  datatype Answer = Answer(id: string, categoryId: string)

  // ---------------------------------------------------------------------
  // Selection

  /** The rows the script starts from: every listed transaction is a row of
      the table without a category and not overridden, with the listed
      household, description and type; and every such row is listed. */
  ghost predicate IsUncategorizedQuery(rows: map<string, TxRow>, txns: seq<UncategorizedTx>) {
    (forall i :: 0 <= i < |txns| ==>
       txns[i].id in rows && rows[txns[i].id].categoryId.None? && !rows[txns[i].id].isCategoryOverridden
       && rows[txns[i].id].householdId == txns[i].householdId && rows[txns[i].id].txType == txns[i].txType
       && rows[txns[i].id].description == txns[i].description)
    && (forall id :: id in rows && rows[id].categoryId.None? && !rows[id].isCategoryOverridden ==>
          exists i :: 0 <= i < |txns| && txns[i].id == id)
  }

  /** `uncategorized.filter(tx => tx.transactionType !== "transfer")`. */
  function Classifiable(txns: seq<UncategorizedTx>): (r: seq<UncategorizedTx>)
    ensures |r| <= |txns|
    ensures forall x :: x in r ==> x in txns && x.txType != Transfer
  {
    if txns == [] then []
    else
      var init := Classifiable(txns[..|txns| - 1]);
      var tx := txns[|txns| - 1];
      if tx.txType != Transfer then init + [tx] else init
  }

  /** Every transaction that is not a transfer is kept. */
  lemma {:induction false} ClassifiableKeeps(txns: seq<UncategorizedTx>)
    ensures forall x :: x in txns && x.txType != Transfer ==> x in Classifiable(txns)
  {
    if txns != [] {
      var init := txns[..|txns| - 1];
      ClassifiableKeeps(init);
      assert txns == init + [txns[|txns| - 1]];
    }
  }

  function HouseholdKey(tx: UncategorizedTx): string {
    tx.householdId
  }

  function DescriptionKey(tx: UncategorizedTx): string {
    Lower(tx.description)
  }

  // ---------------------------------------------------------------------
  // De-duplication by description

  function Ids(txns: seq<UncategorizedTx>): (r: seq<string>)
    ensures |r| == |txns| && forall i :: 0 <= i < |txns| ==> r[i] == txns[i].id
  {
    seq(|txns|, i requires 0 <= i < |txns| => txns[i].id)
  }

  /** The group of the transactions sharing a description: the first one gives
      the original text, amount and type. */
  function GroupOf(members: seq<UncategorizedTx>): (g: DescriptionGroup)
    requires |members| > 0
    ensures g.original == members[0].description
    ensures g.txnIds == Ids(members)
  {
    DescriptionGroup(members[0].description, Ids(members), members[0].amount, members[0].txType)
  }

  /** The groups of the keys `ks`, in that order. */
  function GroupsFor(txns: seq<UncategorizedTx>, ks: seq<string>): (gs: seq<DescriptionGroup>)
    requires forall k :: k in ks ==> Members(txns, DescriptionKey, k) != []
    ensures |gs| == |ks|
  {
    seq(|ks|, j requires 0 <= j < |ks| => GroupOf(Members(txns, DescriptionKey, ks[j])))
  }

  lemma GroupsForSnoc(txns: seq<UncategorizedTx>, ks: seq<string>, k: string)
    requires forall x :: x in ks + [k] ==> Members(txns, DescriptionKey, x) != []
    ensures GroupsFor(txns, ks + [k]) == GroupsFor(txns, ks) + [GroupOf(Members(txns, DescriptionKey, k))]
  {
  }

  /** Every key of the grouping has members. */
  lemma KeysHaveMembers(txns: seq<UncategorizedTx>)
    ensures forall k :: k in KeysInOrder(txns, DescriptionKey) ==> Members(txns, DescriptionKey, k) != []
  {
  }

  /** `groups`: one group per distinct lowercased description, in order of first occurrence. */
  function DescriptionGroups(txns: seq<UncategorizedTx>): seq<DescriptionGroup> {
    KeysHaveMembers(txns);
    GroupsFor(txns, KeysInOrder(txns, DescriptionKey))
  }

  /** The number of transactions the groups hold. */
  function TxnCount(groups: seq<DescriptionGroup>): nat {
    if groups == [] then 0 else TxnCount(groups[..|groups| - 1]) + |groups[|groups| - 1].txnIds|
  }

  lemma {:induction false} GroupsForCount(txns: seq<UncategorizedTx>, ks: seq<string>)
    requires forall k :: k in ks ==> Members(txns, DescriptionKey, k) != []
    ensures TxnCount(GroupsFor(txns, ks)) == SizeSum(txns, DescriptionKey, ks)
  {
    if ks != [] {
      var init, k := ks[..|ks| - 1], ks[|ks| - 1];
      assert ks == init + [k];
      GroupsForCount(txns, init);
      GroupsForSnoc(txns, init, k);
      SizeSumAppendKey(txns, DescriptionKey, init, k);
    }
  }

  /** De-duplication loses no transaction: the group sizes add up to the
      household's transaction count. */
  lemma GroupSizesSum(txns: seq<UncategorizedTx>)
    ensures TxnCount(DescriptionGroups(txns)) == |txns|
  {
    GroupsForCount(txns, KeysInOrder(txns, DescriptionKey));
    GroupsPartition(txns, DescriptionKey);
  }

  /** Every id a group holds is the id of one of the transactions, and the
      group's transactions all share its description up to case. */
  lemma GroupIdsFromTxns(txns: seq<UncategorizedTx>, j: int, n: int)
    requires 0 <= j < |DescriptionGroups(txns)|
    requires 0 <= n < |DescriptionGroups(txns)[j].txnIds|
    ensures
      exists i :: 0 <= i < |txns| && txns[i].id == DescriptionGroups(txns)[j].txnIds[n]
        && Lower(txns[i].description) == Lower(DescriptionGroups(txns)[j].original)
  {
    var ks := KeysInOrder(txns, DescriptionKey);
    KeysHaveMembers(txns);
    var ms := Members(txns, DescriptionKey, ks[j]);
    assert ms[n] in ms && ms[0] in ms;
    var i :| 0 <= i < |txns| && txns[i] == ms[n];
  }

  /** The groups held by `byKey`, read in the order of `keys`. */
  function GroupsOfMap(keys: seq<string>, byKey: map<string, seq<UncategorizedTx>>): (gs: seq<DescriptionGroup>)
    requires forall k :: k in keys ==> k in byKey && byKey[k] != []
    ensures |gs| == |keys|
    ensures forall j :: 0 <= j < |keys| ==> gs[j].txnIds == Ids(byKey[keys[j]])
  {
    seq(|keys|, j requires 0 <= j < |keys| => GroupOf(byKey[keys[j]]))
  }

  /** A map holding every key's members gives the groups of the grouping. */
  lemma GroupsOfMapIs(txns: seq<UncategorizedTx>, keys: seq<string>, byKey: map<string, seq<UncategorizedTx>>)
    requires keys == KeysInOrder(txns, DescriptionKey)
    requires forall k :: k in byKey <==> k in keys
    requires forall k :: k in byKey ==> byKey[k] == Members(txns, DescriptionKey, k)
    ensures forall k :: k in keys ==> k in byKey && byKey[k] != []
    ensures GroupsOfMap(keys, byKey) == DescriptionGroups(txns)
  {
    KeysHaveMembers(txns);
    var gs, expected := GroupsOfMap(keys, byKey), DescriptionGroups(txns);
    forall j | 0 <= j < |keys| ensures gs[j] == expected[j] {
      assert byKey[keys[j]] == Members(txns, DescriptionKey, keys[j]);
    }
  }

  /** The loop filling `groups`, the `Map` keyed by lowercased description,
      read back in key order. */
  method GroupDescriptions(txns: seq<UncategorizedTx>) returns (groups: seq<DescriptionGroup>)
    ensures groups == DescriptionGroups(txns)
  {
    var keys, byKey := GroupBy(txns, DescriptionKey);
    KeysHaveMembers(txns);
    groups := GroupsOfMap(keys, byKey);
    GroupsOfMapIs(txns, keys, byKey);
  }

  // ---------------------------------------------------------------------
  // Rule tier

  /** The groups no rule matches, in order. */
  function UnmatchedGroups(groups: seq<DescriptionGroup>, rules: seq<CategorizationRule>): (r: seq<DescriptionGroup>)
    ensures |r| <= |groups|
  {
    if groups == [] then []
    else
      var init := UnmatchedGroups(groups[..|groups| - 1], rules);
      var g := groups[|groups| - 1];
      if MatchRule(rules, g.original).None? then init + [g] else init
  }

  /** A group goes to the AI tier exactly when no rule matches its original text. */
  lemma {:induction false} UnmatchedGroupsMembers(groups: seq<DescriptionGroup>, rules: seq<CategorizationRule>)
    ensures forall g :: g in UnmatchedGroups(groups, rules) <==> g in groups && MatchRule(rules, g.original).None?
  {
    if groups != [] {
      var init, g := groups[..|groups| - 1], groups[|groups| - 1];
      UnmatchedGroupsMembers(init, rules);
      assert groups == init + [g];
    }
  }

  /** The table after the rule tier: every id of each matched group gets the
      rule's category with method "rule". */
  function IdSet(ids: seq<string>): (r: set<string>)
    ensures forall id :: id in r <==> id in ids
  {
    set id | id in ids
  }

  function GroupRulesApplied(rows: map<string, TxRow>, groups: seq<DescriptionGroup>, rules: seq<CategorizationRule>): (r: map<string, TxRow>)
    ensures r.Keys == rows.Keys
  {
    if groups == [] then rows
    else
      var before := GroupRulesApplied(rows, groups[..|groups| - 1], rules);
      var g := groups[|groups| - 1];
      match MatchRule(rules, g.original)
      case Some(m) => Categorised(before, IdSet(g.txnIds), m.categoryId, ByRule)
      case None => before
  }

  lemma RuleTierSnoc(rows: map<string, TxRow>, groups: seq<DescriptionGroup>, g: DescriptionGroup, rules: seq<CategorizationRule>)
    ensures UnmatchedGroups(groups + [g], rules)
      == UnmatchedGroups(groups, rules) + (if MatchRule(rules, g.original).None? then [g] else [])
    ensures GroupRulesApplied(rows, groups + [g], rules)
      == match MatchRule(rules, g.original)
         case Some(m) => Categorised(GroupRulesApplied(rows, groups, rules), IdSet(g.txnIds), m.categoryId, ByRule)
         case None => GroupRulesApplied(rows, groups, rules)
  {
    assert (groups + [g])[..|groups|] == groups;
  }

  /** A row the rule tier changes belongs to a matched group and gets that
      group's rule category with method "rule"; nothing else of it changes. */
  lemma {:induction false} GroupRulesChanges(rows: map<string, TxRow>, groups: seq<DescriptionGroup>, rules: seq<CategorizationRule>, id: string)
    requires id in rows && GroupRulesApplied(rows, groups, rules)[id] != rows[id]
    ensures
      exists j :: 0 <= j < |groups| && id in groups[j].txnIds && MatchRule(rules, groups[j].original).Some?
        && GroupRulesApplied(rows, groups, rules)[id]
           == rows[id].(categoryId := Some(MatchRule(rules, groups[j].original).value.categoryId), classificationMethod := Some(ByRule))
  {
    var init, g := groups[..|groups| - 1], groups[|groups| - 1];
    var before := GroupRulesApplied(rows, init, rules);
    var m := MatchRule(rules, g.original);
    if m.Some? && id in g.txnIds {
      var j := |groups| - 1;
      if before[id] != rows[id] {
        GroupRulesChanges(rows, init, rules, id);
      }
    } else {
      assert GroupRulesApplied(rows, groups, rules)[id] == before[id];
      GroupRulesChanges(rows, init, rules, id);
      var j :| 0 <= j < |init| && id in init[j].txnIds && MatchRule(rules, init[j].original).Some?
        && before[id] == rows[id].(categoryId := Some(MatchRule(rules, init[j].original).value.categoryId), classificationMethod := Some(ByRule));
      assert groups[j] == init[j];
    }
  }

  /** One group of the rule loop. */
  method RuleGroupStep(table: TransactionTable, g: DescriptionGroup, rules: seq<CategorizationRule>, dryRun: bool)
    returns (matched: bool)
    requires table.Valid()
    modifies table
    ensures table.Valid()
    ensures matched <==> MatchRule(rules, g.original).Some?
    ensures dryRun || !matched ==> table.rows == old(table.rows)
    ensures !dryRun && matched ==>
      table.rows == Categorised(old(table.rows), IdSet(g.txnIds), MatchRule(rules, g.original).value.categoryId, ByRule)
  {
    var m := MatchRule(rules, g.original);
    matched := m.Some?;
    if matched && !dryRun {
      table.SetCategory(IdSet(g.txnIds), m.value.categoryId, ByRule);
    }
  }

  /** The rule loop over the groups: matched groups are counted and, unless in
      dry-run mode, every id of the group is updated; the rest are kept, in
      order, for the AI tier. */
  method RuleTier(table: TransactionTable, groups: seq<DescriptionGroup>, rules: seq<CategorizationRule>, dryRun: bool)
    returns (unmatched: seq<DescriptionGroup>, ruleMatched: nat)
    requires table.Valid()
    modifies table
    ensures table.Valid()
    ensures unmatched == UnmatchedGroups(groups, rules)
    ensures ruleMatched + |unmatched| == |groups|
    ensures table.rows == if dryRun then old(table.rows) else GroupRulesApplied(old(table.rows), groups, rules)
  {
    unmatched, ruleMatched := [], 0;
    var i := 0;
    while i < |groups|
      invariant 0 <= i <= |groups| && table.Valid()
      invariant unmatched == UnmatchedGroups(groups[..i], rules)
      invariant ruleMatched + |unmatched| == i
      invariant table.rows == if dryRun then old(table.rows) else GroupRulesApplied(old(table.rows), groups[..i], rules)
    {
      assert groups[..i + 1] == groups[..i] + [groups[i]];
      RuleTierSnoc(old(table.rows), groups[..i], groups[i], rules);
      var matched := RuleGroupStep(table, groups[i], rules, dryRun);
      if matched {
        ruleMatched := ruleMatched + 1;
      } else {
        unmatched := unmatched + [groups[i]];
      }
      i := i + 1;
    }
    assert groups[..|groups|] == groups;
  }

  // ---------------------------------------------------------------------
  // Synthetic ids

  /** The synthetic id of the `i`-th unmatched group: "d" followed by `i`. */
  function SynthId(i: nat): (id: string)
    ensures |id| > 0 && id[0] == 'd'
  {
    "d" + NatToString(i)
  }

  /** Distinct positions get distinct synthetic ids. */
  lemma SynthIdInjective(a: nat, b: nat)
    requires SynthId(a) == SynthId(b)
    ensures a == b
  {
    assert SynthId(a)[1..] == NatToString(a);
    assert SynthId(b)[1..] == NatToString(b);
    NatToStringInjective(a, b);
  }

  /** `descEntries`: the unmatched groups, each under its synthetic id. */
  function Entries(unmatched: seq<DescriptionGroup>): (es: seq<Entry>)
    ensures |es| == |unmatched|
    ensures forall i :: 0 <= i < |unmatched| ==> es[i] == Entry(SynthId(i), unmatched[i])
  {
    seq(|unmatched|, i requires 0 <= i < |unmatched| => Entry(SynthId(i), unmatched[i]))
  }

  /** `new Map(batch.map(e => [e.synthId, e.group]))`. */
  function SynthMap(batch: seq<Entry>): (m: map<string, DescriptionGroup>)
    ensures forall id :: id in m <==> exists i :: 0 <= i < |batch| && batch[i].synthId == id
    ensures forall id :: id in m ==> exists i :: 0 <= i < |batch| && batch[i].synthId == id && batch[i].group == m[id]
  {
    if batch == [] then map[]
    else
      var init := batch[..|batch| - 1];
      var e := batch[|batch| - 1];
      var m := SynthMap(init);
      assert forall i :: 0 <= i < |init| ==> init[i] == batch[i];
      m[e.synthId := e.group]
  }

  // ---------------------------------------------------------------------
  // AI tier

  /** Only ids in `ids` changed, and no row appeared or vanished. */
  ghost predicate ChangedWithin(before: map<string, TxRow>, after: map<string, TxRow>, ids: set<string>) {
    before.Keys == after.Keys && forall id :: id in after && after[id] != before[id] ==> id in ids
  }

  lemma ChangedWithinCompose(a: map<string, TxRow>, b: map<string, TxRow>, c: map<string, TxRow>, ids: set<string>)
    requires ChangedWithin(a, b, ids) && ChangedWithin(b, c, ids)
    ensures ChangedWithin(a, c, ids)
  {
  }

  /** Every rule that is new or changed belongs to the household, carries one of
      `categoryIds` and has one of `patterns` as its pattern; no rule vanished. */
  ghost predicate RulesWritten(before: map<string, RuleRow>, after: map<string, RuleRow>, householdId: string,
                               categoryIds: set<string>, patterns: set<string>) {
    before.Keys <= after.Keys
    && forall id :: id in after && (id !in before || after[id] != before[id]) ==>
         after[id].householdId == householdId && after[id].categoryId in categoryIds && after[id].pattern in patterns
  }

  lemma RulesWrittenCompose(a: map<string, RuleRow>, b: map<string, RuleRow>, c: map<string, RuleRow>, householdId: string,
                            categoryIds: set<string>, patterns: set<string>)
    requires RulesWritten(a, b, householdId, categoryIds, patterns) && RulesWritten(b, c, householdId, categoryIds, patterns)
    ensures RulesWritten(a, c, householdId, categoryIds, patterns)
  {
    forall id | id in c && (id !in a || c[id] != a[id])
      ensures c[id].householdId == householdId && c[id].categoryId in categoryIds && c[id].pattern in patterns
    {
      if id in b && c[id] == b[id] {
        assert id !in a || b[id] != a[id];
      }
    }
  }

  /** The effect the AI tier may have: rows set by the AI to one of `validIds`,
      only rows of `ids` touched, and rules written only for the household with
      a valid category and one of `patterns`. */
  ghost predicate AiEffect(before: map<string, TxRow>, after: map<string, TxRow>, rulesBefore: map<string, RuleRow>,
                           rulesAfter: map<string, RuleRow>, householdId: string, validIds: set<string>,
                           ids: set<string>, patterns: set<string>) {
    OnlyAiChanges(before, after, validIds) && ChangedWithin(before, after, ids)
    && RulesWritten(rulesBefore, rulesAfter, householdId, validIds, patterns)
  }

  lemma AiEffectCompose(a: map<string, TxRow>, b: map<string, TxRow>, c: map<string, TxRow>,
                        ra: map<string, RuleRow>, rb: map<string, RuleRow>, rc: map<string, RuleRow>,
                        householdId: string, validIds: set<string>, ids: set<string>, patterns: set<string>)
    requires AiEffect(a, b, ra, rb, householdId, validIds, ids, patterns)
    requires AiEffect(b, c, rb, rc, householdId, validIds, ids, patterns)
    ensures AiEffect(a, c, ra, rc, householdId, validIds, ids, patterns)
  {
    OnlyAiChangesCompose(a, b, c, validIds);
    ChangedWithinCompose(a, b, c, ids);
    RulesWrittenCompose(ra, rb, rc, householdId, validIds, patterns);
  }

  lemma AiEffectWeaken(a: map<string, TxRow>, b: map<string, TxRow>, ra: map<string, RuleRow>, rb: map<string, RuleRow>,
                       householdId: string, validIds: set<string>, ids: set<string>, patterns: set<string>,
                       ids': set<string>, patterns': set<string>)
    requires AiEffect(a, b, ra, rb, householdId, validIds, ids, patterns)
    requires ids <= ids' && patterns <= patterns'
    ensures AiEffect(a, b, ra, rb, householdId, validIds, ids', patterns')
  {
  }

  /** Whether an answer is applied: its category is a known one and its id
      names an entry of the batch. */
  predicate Accepted(item: Answer, synth: map<string, DescriptionGroup>, validIds: set<string>) {
    item.categoryId in validIds && item.id in synth
  }

  /** One answer: ignored unless accepted; otherwise every id of its group is
      updated with method "ai" and a rule (householdId, the group's original
      text) is upserted, unless that write fails. */
  method ApplyAnswer(table: TransactionTable, ruleTable: RuleTable, householdId: string,
                     synth: map<string, DescriptionGroup>, validIds: set<string>, item: Answer, ruleFails: set<string>)
    returns (accepted: bool, ruleWritten: bool)
    requires table.Valid() && ruleTable.Valid()
    modifies table, ruleTable
    ensures table.Valid() && ruleTable.Valid()
    ensures accepted <==> Accepted(item, synth, validIds)
    ensures ruleWritten <==> accepted && synth[item.id].original !in ruleFails
    ensures !accepted ==> table.rows == old(table.rows)
    ensures accepted ==> table.rows == Categorised(old(table.rows), IdSet(synth[item.id].txnIds), item.categoryId, ByAi)
    ensures !ruleWritten ==> ruleTable.rows == old(ruleTable.rows)
    ensures ruleWritten ==> ruleTable.HasPattern(householdId, synth[item.id].original)
    ensures ruleWritten && old(ruleTable.HasPattern(householdId, synth[item.id].original)) ==>
      ruleTable.rows == Retargeted(old(ruleTable.rows), householdId, synth[item.id].original, item.categoryId)
    ensures ruleWritten && !old(ruleTable.HasPattern(householdId, synth[item.id].original)) ==>
      exists id :: id !in old(ruleTable.rows)
        && ruleTable.rows == old(ruleTable.rows)[id := RuleRow(householdId, synth[item.id].original, item.categoryId, 0)]
  {
    accepted, ruleWritten := false, false;
    if item.categoryId !in validIds {
      return;
    }
    if item.id !in synth {
      return;
    }
    accepted := true;
    var group := synth[item.id];
    table.SetCategory(IdSet(group.txnIds), item.categoryId, ByAi);
    if group.original !in ruleFails {
      ruleTable.Upsert(householdId, group.original, item.categoryId);
      ruleWritten := true;
    }
  }

  /** The ids of all transactions of the given groups. */
  function GroupIds(synth: map<string, DescriptionGroup>): set<string> {
    set g, id | g in synth.Values && id in g.txnIds :: id
  }

  function GroupOriginals(synth: map<string, DescriptionGroup>): set<string> {
    set g | g in synth.Values :: g.original
  }

  /** The effect of one accepted or ignored answer, in the terms of the batch. */
  lemma AnswerEffect(before: map<string, TxRow>, after: map<string, TxRow>, rulesBefore: map<string, RuleRow>,
                     rulesAfter: map<string, RuleRow>, householdId: string, synth: map<string, DescriptionGroup>,
                     validIds: set<string>, item: Answer, accepted: bool, ruleWritten: bool)
    requires accepted <==> Accepted(item, synth, validIds)
    requires ruleWritten ==> accepted
    requires !accepted ==> after == before
    requires accepted ==> after == Categorised(before, IdSet(synth[item.id].txnIds), item.categoryId, ByAi)
    requires !ruleWritten ==> rulesAfter == rulesBefore
    requires ruleWritten ==>
      rulesAfter == Retargeted(rulesBefore, householdId, synth[item.id].original, item.categoryId)
      || exists id :: id !in rulesBefore && rulesAfter == rulesBefore[id := RuleRow(householdId, synth[item.id].original, item.categoryId, 0)]
    ensures AiEffect(before, after, rulesBefore, rulesAfter, householdId, validIds, GroupIds(synth), GroupOriginals(synth))
  {
    if accepted {
      var g := synth[item.id];
      assert g in synth.Values;
      assert forall id :: id in g.txnIds ==> id in GroupIds(synth);
      assert g.original in GroupOriginals(synth);
    }
  }

  /** The loop over one batch's answers. */
  method ApplyAnswers(table: TransactionTable, ruleTable: RuleTable, householdId: string,
                      synth: map<string, DescriptionGroup>, validIds: set<string>, answers: seq<Answer>, ruleFails: set<string>)
    returns (aiClassified: nat, rulesCreated: nat)
    requires table.Valid() && ruleTable.Valid()
    modifies table, ruleTable
    ensures table.Valid() && ruleTable.Valid()
    ensures rulesCreated <= aiClassified <= |answers|
    ensures aiClassified == |set j | 0 <= j < |answers| && Accepted(answers[j], synth, validIds)|
    ensures AiEffect(old(table.rows), table.rows, old(ruleTable.rows), ruleTable.rows, householdId, validIds,
                     GroupIds(synth), GroupOriginals(synth))
  {
    aiClassified, rulesCreated := 0, 0;
    var k := 0;
    while k < |answers|
      invariant 0 <= k <= |answers| && table.Valid() && ruleTable.Valid()
      invariant rulesCreated <= aiClassified <= k
      invariant aiClassified == |set j | 0 <= j < k && Accepted(answers[j], synth, validIds)|
      invariant AiEffect(old(table.rows), table.rows, old(ruleTable.rows), ruleTable.rows, householdId, validIds,
                         GroupIds(synth), GroupOriginals(synth))
    {
      ghost var rows0, rules0 := table.rows, ruleTable.rows;
      var accepted, ruleWritten := ApplyAnswer(table, ruleTable, householdId, synth, validIds, answers[k], ruleFails);
      AnswerEffect(rows0, table.rows, rules0, ruleTable.rows, householdId, synth, validIds, answers[k], accepted, ruleWritten);
      AiEffectCompose(old(table.rows), rows0, table.rows, old(ruleTable.rows), rules0, ruleTable.rows, householdId,
                      validIds, GroupIds(synth), GroupOriginals(synth));
      CountStep(answers, synth, validIds, k);
      if accepted {
        aiClassified := aiClassified + 1;
      }
      if ruleWritten {
        rulesCreated := rulesCreated + 1;
      }
      k := k + 1;
    }
  }

  /** The accepted answers among the first `k + 1` are those among the first
      `k`, plus answer `k` when it is accepted. */
  lemma CountStep(answers: seq<Answer>, synth: map<string, DescriptionGroup>, validIds: set<string>, k: int)
    requires 0 <= k < |answers|
    ensures |set j | 0 <= j < k + 1 && Accepted(answers[j], synth, validIds)|
      == |set j | 0 <= j < k && Accepted(answers[j], synth, validIds)| + (if Accepted(answers[k], synth, validIds) then 1 else 0)
  {
    var before := set j | 0 <= j < k && Accepted(answers[j], synth, validIds);
    var after := set j | 0 <= j < k + 1 && Accepted(answers[j], synth, validIds);
    if Accepted(answers[k], synth, validIds) {
      assert after == before + {k};
    } else {
      assert after == before;
    }
  }

  /** Every id of the entries' groups lies in `ids`. */
  ghost predicate EntriesWithin(entries: seq<Entry>, ids: set<string>) {
    forall i, n :: 0 <= i < |entries| && 0 <= n < |entries[i].group.txnIds| ==> entries[i].group.txnIds[n] in ids
  }

  /** The batch's groups only hold ids and texts of the entries. */
  lemma SynthWithin(batch: seq<Entry>, ids: set<string>, originals: set<string>)
    requires EntriesWithin(batch, ids)
    requires forall i :: 0 <= i < |batch| ==> batch[i].group.original in originals
    ensures GroupIds(SynthMap(batch)) <= ids
    ensures GroupOriginals(SynthMap(batch)) <= originals
  {
    var m := SynthMap(batch);
    forall id | id in GroupIds(m) ensures id in ids {
      var g, x :| g in m.Values && x in g.txnIds && x == id;
      var s :| s in m && m[s] == g;
      var i :| 0 <= i < |batch| && batch[i].synthId == s && batch[i].group == m[s];
      var n :| 0 <= n < |g.txnIds| && g.txnIds[n] == id;
    }
    forall p | p in GroupOriginals(m) ensures p in originals {
      var g :| g in m.Values && g.original == p;
      var s :| s in m && m[s] == g;
      var i :| 0 <= i < |batch| && batch[i].synthId == s && batch[i].group == m[s];
    }
  }

  /** One batch: in dry-run mode nothing is sent; otherwise the model is asked
      and, when the call succeeds, its answers are applied. */
  method ClassifyBatch(table: TransactionTable, ruleTable: RuleTable, householdId: string, batch: seq<Entry>,
                       validIds: set<string>, reply: Result<seq<Answer>>, ruleFails: set<string>, dryRun: bool,
                       ids: set<string>, originals: set<string>)
    requires table.Valid() && ruleTable.Valid()
    requires EntriesWithin(batch, ids)
    requires forall i :: 0 <= i < |batch| ==> batch[i].group.original in originals
    modifies table, ruleTable
    ensures table.Valid() && ruleTable.Valid()
    ensures dryRun ==> table.rows == old(table.rows) && ruleTable.rows == old(ruleTable.rows)
    ensures AiEffect(old(table.rows), table.rows, old(ruleTable.rows), ruleTable.rows, householdId, validIds, ids, originals)
  {
    if dryRun || reply.Err? {
      return;
    }
    var synth := SynthMap(batch);
    SynthWithin(batch, ids, originals);
    var aiClassified, rulesCreated := ApplyAnswers(table, ruleTable, householdId, synth, validIds, reply.value, ruleFails);
    AiEffectWeaken(old(table.rows), table.rows, old(ruleTable.rows), ruleTable.rows, householdId, validIds,
                   GroupIds(synth), GroupOriginals(synth), ids, originals);
  }

  /** A batch of the entries holds only their ids and texts. */
  lemma SliceWithin(entries: seq<Entry>, i: nat, ids: set<string>, originals: set<string>)
    requires EntriesWithin(entries, ids)
    requires forall j :: 0 <= j < |entries| ==> entries[j].group.original in originals
    ensures EntriesWithin(Slice(entries, i, BatchSize), ids)
    ensures forall j :: 0 <= j < |Slice(entries, i, BatchSize)| ==> Slice(entries, i, BatchSize)[j].group.original in originals
  {
    var batch := Slice(entries, i, BatchSize);
    forall j | 0 <= j < |batch| ensures batch[j] == entries[i + j] { }
  }

  /** The batch loop over the entries, stepping the index by 50; every batch
      counts as an API call, in dry-run mode too. */
  method ClassifyBatches(table: TransactionTable, ruleTable: RuleTable, householdId: string, entries: seq<Entry>,
                         validIds: set<string>, replies: nat -> Result<seq<Answer>>, ruleFails: set<string>, dryRun: bool,
                         ids: set<string>, originals: set<string>)
    returns (ghost batches: seq<seq<Entry>>, apiCalls: nat)
    requires table.Valid() && ruleTable.Valid()
    requires EntriesWithin(entries, ids)
    requires forall i :: 0 <= i < |entries| ==> entries[i].group.original in originals
    modifies table, ruleTable
    ensures table.Valid() && ruleTable.Valid()
    ensures Flatten(batches) == entries && Batched(batches, BatchSize) && apiCalls == |batches|
    ensures dryRun ==> table.rows == old(table.rows) && ruleTable.rows == old(ruleTable.rows)
    ensures AiEffect(old(table.rows), table.rows, old(ruleTable.rows), ruleTable.rows, householdId, validIds, ids, originals)
  {
    batches, apiCalls := [], 0;
    var i := 0;
    while i < |entries|
      invariant table.Valid() && ruleTable.Valid()
      invariant i == |batches| * BatchSize && apiCalls == |batches|
      invariant Flatten(batches) == entries[..Min(i, |entries|)]
      invariant Batched(batches, BatchSize)
      invariant dryRun ==> table.rows == old(table.rows) && ruleTable.rows == old(ruleTable.rows)
      invariant AiEffect(old(table.rows), table.rows, old(ruleTable.rows), ruleTable.rows, householdId, validIds, ids, originals)
      decreases |entries| - i
    {
      var batch := Slice(entries, i, BatchSize);
      BatchStep(entries, batches, i, BatchSize);
      SliceWithin(entries, i, ids, originals);
      ghost var rows0, rules0 := table.rows, ruleTable.rows;
      ClassifyBatch(table, ruleTable, householdId, batch, validIds, replies(apiCalls), ruleFails, dryRun, ids, originals);
      AiEffectCompose(old(table.rows), rows0, table.rows, old(ruleTable.rows), rules0, ruleTable.rows, householdId,
                      validIds, ids, originals);
      batches := batches + [batch];
      apiCalls := apiCalls + 1;
      i := i + BatchSize;
    }
    assert entries[..|entries|] == entries;
  }

  // ---------------------------------------------------------------------
  // One household

  /** The ids of the categories. */
  function CategoryIds(categories: seq<CategoryEntry>): set<string> {
    set c | c in categories :: c.id
  }

  /** The descriptions of the transactions. */
  function Descriptions(txns: seq<UncategorizedTx>): (r: set<string>)
    ensures forall d :: d in r <==> exists i :: 0 <= i < |txns| && txns[i].description == d
  {
    set tx | tx in txns :: tx.description
  }

  /** The AI tier runs when either credential of the gateway is set. */
  predicate AiConfigured(gatewayKey: Option<string>, oidcToken: Option<string>) {
    IsSet(gatewayKey) || IsSet(oidcToken)
  }

  /** Only the category and the method of a changed row differ, and the
      category is set; no row appeared or vanished. */
  ghost predicate CategoryOnly(before: map<string, TxRow>, after: map<string, TxRow>) {
    before.Keys == after.Keys
    && forall id :: id in after && after[id] != before[id] ==>
         after[id].categoryId.Some?
         && after[id] == before[id].(categoryId := after[id].categoryId, classificationMethod := after[id].classificationMethod)
  }

  lemma CategoryOnlyCompose(a: map<string, TxRow>, b: map<string, TxRow>, c: map<string, TxRow>)
    requires CategoryOnly(a, b) && CategoryOnly(b, c)
    ensures CategoryOnly(a, c)
  {
    forall id | id in c && c[id] != a[id]
      ensures c[id].categoryId.Some?
      ensures c[id] == a[id].(categoryId := c[id].categoryId, classificationMethod := c[id].classificationMethod)
    {
      if c[id] == b[id] {
        assert b[id] != a[id];
      }
    }
  }

  lemma ChangedWithinWeaken(a: map<string, TxRow>, b: map<string, TxRow>, ids: set<string>, ids': set<string>)
    requires ChangedWithin(a, b, ids) && ids <= ids'
    ensures ChangedWithin(a, b, ids')
  {
  }

  /** A group's original text is the description of one of its transactions. */
  lemma GroupOriginalFromTxns(txns: seq<UncategorizedTx>, j: int)
    requires 0 <= j < |DescriptionGroups(txns)|
    ensures exists i :: 0 <= i < |txns| && txns[i].description == DescriptionGroups(txns)[j].original
  {
    var ks := KeysInOrder(txns, DescriptionKey);
    KeysHaveMembers(txns);
    var ms := Members(txns, DescriptionKey, ks[j]);
    assert ms[0] in ms;
    var i :| 0 <= i < |txns| && txns[i] == ms[0];
  }

  /** The rule tier only touches the household's own transactions, and only
      their category and method. */
  lemma RuleTierWithin(rows: map<string, TxRow>, txns: seq<UncategorizedTx>, rules: seq<CategorizationRule>)
    ensures ChangedWithin(rows, GroupRulesApplied(rows, DescriptionGroups(txns), rules), IdSet(Ids(txns)))
    ensures CategoryOnly(rows, GroupRulesApplied(rows, DescriptionGroups(txns), rules))
  {
    var groups := DescriptionGroups(txns);
    var after := GroupRulesApplied(rows, groups, rules);
    forall id | id in after && after[id] != rows[id]
      ensures id in IdSet(Ids(txns))
      ensures after[id].categoryId.Some?
      ensures after[id] == rows[id].(categoryId := after[id].categoryId, classificationMethod := after[id].classificationMethod)
    {
      GroupRulesChanges(rows, groups, rules, id);
      var j :| 0 <= j < |groups| && id in groups[j].txnIds && MatchRule(rules, groups[j].original).Some?
        && after[id] == rows[id].(categoryId := Some(MatchRule(rules, groups[j].original).value.categoryId), classificationMethod := Some(ByRule));
      var n :| 0 <= n < |groups[j].txnIds| && groups[j].txnIds[n] == id;
      GroupIdsFromTxns(txns, j, n);
    }
  }

  /** The entries sent to the model hold only the household's ids and descriptions. */
  lemma UnmatchedWithin(txns: seq<UncategorizedTx>, rules: seq<CategorizationRule>)
    ensures EntriesWithin(Entries(UnmatchedGroups(DescriptionGroups(txns), rules)), IdSet(Ids(txns)))
    ensures var es := Entries(UnmatchedGroups(DescriptionGroups(txns), rules));
      forall i :: 0 <= i < |es| ==> es[i].group.original in Descriptions(txns)
  {
    var groups := DescriptionGroups(txns);
    var unmatched := UnmatchedGroups(groups, rules);
    var es := Entries(unmatched);
    UnmatchedGroupsMembers(groups, rules);
    forall i | 0 <= i < |es|
      ensures es[i].group.original in Descriptions(txns)
      ensures forall n :: 0 <= n < |es[i].group.txnIds| ==> es[i].group.txnIds[n] in IdSet(Ids(txns))
    {
      assert unmatched[i] in unmatched;
      var j :| 0 <= j < |groups| && groups[j] == unmatched[i];
      GroupOriginalFromTxns(txns, j);
      forall n | 0 <= n < |es[i].group.txnIds| ensures es[i].group.txnIds[n] in IdSet(Ids(txns)) {
        GroupIdsFromTxns(txns, j, n);
      }
    }
  }

  /** An AI-tier change touches only the category and the method. */
  lemma AiChangesCategoryOnly(before: map<string, TxRow>, after: map<string, TxRow>, ids: set<string>)
    requires OnlyAiChanges(before, after, ids)
    ensures CategoryOnly(before, after)
  {
  }

  /** The AI tier of one household, from the category query on. */
  method AiTier(table: TransactionTable, ruleTable: RuleTable, householdId: string, txns: seq<UncategorizedTx>,
                unmatched: seq<DescriptionGroup>, rules: seq<CategorizationRule>, categories: seq<CategoryEntry>,
                replies: nat -> Result<seq<Answer>>, ruleFails: set<string>, dryRun: bool)
    returns (ghost batches: seq<seq<Entry>>, apiCalls: nat)
    requires table.Valid() && ruleTable.Valid()
    requires unmatched == UnmatchedGroups(DescriptionGroups(txns), rules)
    modifies table, ruleTable
    ensures table.Valid() && ruleTable.Valid()
    ensures Flatten(batches) == Entries(unmatched) && Batched(batches, BatchSize) && apiCalls == |batches|
    ensures dryRun ==> table.rows == old(table.rows) && ruleTable.rows == old(ruleTable.rows)
    ensures AiEffect(old(table.rows), table.rows, old(ruleTable.rows), ruleTable.rows, householdId, CategoryIds(categories),
                     IdSet(Ids(txns)), Descriptions(txns))
  {
    var rootNames := BuildRootNames(categories);
    var options := Options(categories, rootNames);
    OptionIdsOfOptions(categories, rootNames);
    var validIds := OptionIds(options);
    var entries := Entries(unmatched);
    UnmatchedWithin(txns, rules);
    batches, apiCalls := ClassifyBatches(table, ruleTable, householdId, entries, validIds, replies, ruleFails, dryRun,
                                         IdSet(Ids(txns)), Descriptions(txns));
  }

  /** `processHousehold`: group the descriptions, apply the rules, and send the
      unmatched groups to the model when there are any and a credential is set. */
  method ProcessHousehold(table: TransactionTable, ruleTable: RuleTable, householdId: string, txns: seq<UncategorizedTx>,
                          rules: seq<CategorizationRule>, gatewayKey: Option<string>, oidcToken: Option<string>,
                          categories: seq<CategoryEntry>, replies: nat -> Result<seq<Answer>>, ruleFails: set<string>,
                          dryRun: bool)
    returns (unmatched: seq<DescriptionGroup>, ruleMatched: nat, ghost afterRules: map<string, TxRow>,
             ghost batches: seq<seq<Entry>>, apiCalls: nat)
    requires table.Valid() && ruleTable.Valid()
    modifies table, ruleTable
    ensures table.Valid() && ruleTable.Valid()
    ensures unmatched == UnmatchedGroups(DescriptionGroups(txns), rules)
    ensures ruleMatched + |unmatched| == |DescriptionGroups(txns)|
    ensures afterRules == if dryRun then old(table.rows) else GroupRulesApplied(old(table.rows), DescriptionGroups(txns), rules)
    ensures dryRun ==> table.rows == old(table.rows) && ruleTable.rows == old(ruleTable.rows)
    ensures unmatched == [] || !AiConfigured(gatewayKey, oidcToken) ==>
      table.rows == afterRules && ruleTable.rows == old(ruleTable.rows) && apiCalls == 0
    ensures unmatched != [] && AiConfigured(gatewayKey, oidcToken) ==>
      Flatten(batches) == Entries(unmatched) && Batched(batches, BatchSize) && apiCalls == |batches|
    ensures OnlyAiChanges(afterRules, table.rows, CategoryIds(categories))
    ensures ChangedWithin(old(table.rows), table.rows, IdSet(Ids(txns)))
    ensures CategoryOnly(old(table.rows), table.rows)
    ensures RulesWritten(old(ruleTable.rows), ruleTable.rows, householdId, CategoryIds(categories), Descriptions(txns))
  {
    var groups := GroupDescriptions(txns);
    unmatched, ruleMatched := RuleTier(table, groups, rules, dryRun);
    afterRules, batches, apiCalls := table.rows, [], 0;
    RuleTierWithin(old(table.rows), txns, rules);
    if unmatched == [] || !AiConfigured(gatewayKey, oidcToken) {
      return;
    }
    batches, apiCalls := AiTier(table, ruleTable, householdId, txns, unmatched, rules, categories, replies, ruleFails, dryRun);
    ChangedWithinCompose(old(table.rows), afterRules, table.rows, IdSet(Ids(txns)));
    AiChangesCategoryOnly(afterRules, table.rows, CategoryIds(categories));
    CategoryOnlyCompose(old(table.rows), afterRules, table.rows);
  }

  // ---------------------------------------------------------------------
  // All households

  /** Every rule that is new or changed carries a category of its own
      household and the description of one of that household's transactions;
      no rule vanished. */
  ghost predicate RulesFromHouseholds(before: map<string, RuleRow>, after: map<string, RuleRow>, txns: seq<UncategorizedTx>,
                                      categoriesFor: string -> seq<CategoryEntry>) {
    before.Keys <= after.Keys
    && forall id :: id in after && (id !in before || after[id] != before[id]) ==>
         after[id].categoryId in CategoryIds(categoriesFor(after[id].householdId))
         && exists i :: 0 <= i < |txns| && txns[i].householdId == after[id].householdId && txns[i].description == after[id].pattern
  }

  /** What one household does to the tables keeps the whole run's guarantees. */
  lemma HouseholdStep(a: map<string, TxRow>, b: map<string, TxRow>, c: map<string, TxRow>,
                      ra: map<string, RuleRow>, rb: map<string, RuleRow>, rc: map<string, RuleRow>,
                      h: string, members: seq<UncategorizedTx>, txns: seq<UncategorizedTx>,
                      categoriesFor: string -> seq<CategoryEntry>)
    requires forall x :: x in members ==> x in txns && x.householdId == h
    requires ChangedWithin(a, b, IdSet(Ids(txns))) && CategoryOnly(a, b) && RulesFromHouseholds(ra, rb, txns, categoriesFor)
    requires ChangedWithin(b, c, IdSet(Ids(members))) && CategoryOnly(b, c)
    requires RulesWritten(rb, rc, h, CategoryIds(categoriesFor(h)), Descriptions(members))
    ensures ChangedWithin(a, c, IdSet(Ids(txns))) && CategoryOnly(a, c) && RulesFromHouseholds(ra, rc, txns, categoriesFor)
  {
    assert IdSet(Ids(members)) <= IdSet(Ids(txns)) by {
      forall id | id in IdSet(Ids(members)) ensures id in IdSet(Ids(txns)) {
        var n :| 0 <= n < |members| && members[n].id == id;
        assert members[n] in members;
        var i :| 0 <= i < |txns| && txns[i] == members[n];
      }
    }
    ChangedWithinWeaken(b, c, IdSet(Ids(members)), IdSet(Ids(txns)));
    ChangedWithinCompose(a, b, c, IdSet(Ids(txns)));
    CategoryOnlyCompose(a, b, c);
    forall id | id in rc && (id !in ra || rc[id] != ra[id])
      ensures rc[id].categoryId in CategoryIds(categoriesFor(rc[id].householdId))
      ensures exists i :: 0 <= i < |txns| && txns[i].householdId == rc[id].householdId && txns[i].description == rc[id].pattern
    {
      if id in rb && rc[id] == rb[id] {
        assert id !in ra || rb[id] != ra[id];
      } else {
        var n :| 0 <= n < |members| && members[n].description == rc[id].pattern;
        assert members[n] in members;
        var i :| 0 <= i < |txns| && txns[i] == members[n];
      }
    }
  }

  /** A row the run changed was, before it, uncategorized, not overridden and
      not a transfer. */
  lemma ChangedRowsWereUncategorized(before: map<string, TxRow>, after: map<string, TxRow>,
                                     uncategorized: seq<UncategorizedTx>)
    requires IsUncategorizedQuery(before, uncategorized)
    requires ChangedWithin(before, after, IdSet(Ids(Classifiable(uncategorized))))
    ensures forall id :: id in after && after[id] != before[id] ==>
      before[id].categoryId.None? && !before[id].isCategoryOverridden && before[id].txType != Transfer
  {
    var cls := Classifiable(uncategorized);
    forall id | id in after && after[id] != before[id]
      ensures before[id].categoryId.None? && !before[id].isCategoryOverridden && before[id].txType != Transfer
    {
      var n :| 0 <= n < |cls| && cls[n].id == id;
      assert cls[n] in cls;
      var k :| 0 <= k < |uncategorized| && uncategorized[k] == cls[n];
    }
  }

  /** `main`: the non-transfer rows of the uncategorized query, grouped by
      household and processed one household after the other, in order of
      first appearance. The rules, categories and model answers of each
      household are inputs. */
  method BulkClassify(table: TransactionTable, ruleTable: RuleTable, uncategorized: seq<UncategorizedTx>,
                      rulesFor: string -> seq<CategorizationRule>, categoriesFor: string -> seq<CategoryEntry>,
                      gatewayKey: Option<string>, oidcToken: Option<string>,
                      replies: string -> nat -> Result<seq<Answer>>, ruleFails: set<string>, dryRun: bool)
    returns (classifiable: seq<UncategorizedTx>, households: seq<string>)
    requires table.Valid() && ruleTable.Valid()
    requires IsUncategorizedQuery(table.rows, uncategorized)
    modifies table, ruleTable
    ensures table.Valid() && ruleTable.Valid()
    ensures classifiable == Classifiable(uncategorized)
    ensures households == KeysInOrder(classifiable, HouseholdKey)
    ensures dryRun ==> table.rows == old(table.rows) && ruleTable.rows == old(ruleTable.rows)
    ensures ChangedWithin(old(table.rows), table.rows, IdSet(Ids(classifiable)))
    ensures CategoryOnly(old(table.rows), table.rows)
    ensures forall id :: id in table.rows && table.rows[id] != old(table.rows)[id] ==>
      old(table.rows)[id].categoryId.None? && !old(table.rows)[id].isCategoryOverridden && old(table.rows)[id].txType != Transfer
    ensures RulesFromHouseholds(old(ruleTable.rows), ruleTable.rows, classifiable, categoriesFor)
  {
    classifiable := Classifiable(uncategorized);
    if |classifiable| == 0 {
      households := [];
      return;
    }
    var byHousehold;
    households, byHousehold := GroupBy(classifiable, HouseholdKey);
    for i := 0 to |households|
      invariant table.Valid() && ruleTable.Valid()
      invariant dryRun ==> table.rows == old(table.rows) && ruleTable.rows == old(ruleTable.rows)
      invariant ChangedWithin(old(table.rows), table.rows, IdSet(Ids(classifiable)))
      invariant CategoryOnly(old(table.rows), table.rows)
      invariant RulesFromHouseholds(old(ruleTable.rows), ruleTable.rows, classifiable, categoriesFor)
    {
      var h := households[i];
      var members := byHousehold[h];
      ghost var rows0, rules0 := table.rows, ruleTable.rows;
      var unmatched, ruleMatched, afterRules, batches, apiCalls :=
        ProcessHousehold(table, ruleTable, h, members, rulesFor(h), gatewayKey, oidcToken, categoriesFor(h), replies(h),
                         ruleFails, dryRun);
      HouseholdStep(old(table.rows), rows0, table.rows, old(ruleTable.rows), rules0, ruleTable.rows, h, members,
                    classifiable, categoriesFor);
    }
    ChangedRowsWereUncategorized(old(table.rows), table.rows, uncategorized);
  }
}
