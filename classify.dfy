/** `classifyTransactions`: newly inserted transactions are classified in two
    tiers. Rules first: a transaction whose description matches a rule gets
    that rule's category at once. The rest go to the AI tier in batches of 20,
    with the household's categories as the options. Every failure is caught:
    a failed rule query counts as no rules, a failed category query ends the
    run, a failed batch or update is skipped. The queries' results, the
    model's replies and the failing updates are inputs. */
module Classify {
  import opened Common
  import opened Db
  import opened Rules
  import opened Direction
  import opened Ai

  const BatchSize: nat := 20

  /** A transaction handed to the classifier right after insertion. */
  datatype NewTransaction = NewTransaction(id: string, description: string, amount: string, txType: TxType)

  /** A category as the options query returns it. */
  datatype CategoryEntry = CategoryEntry(id: string, name: string, parentId: Option<string>)

  // ---------------------------------------------------------------------
  // Tier 1: rules

  /** The transactions no rule matches, in input order. */
  function Unmatched(txns: seq<NewTransaction>, rules: seq<CategorizationRule>): (r: seq<NewTransaction>)
    ensures |r| <= |txns|
  {
    if txns == [] then []
    else
      var init := Unmatched(txns[..|txns| - 1], rules);
      var tx := txns[|txns| - 1];
      if MatchRule(rules, tx.description).None? then init + [tx] else init
  }

  /** A transaction is left for the AI tier exactly when no rule matches it. */
  lemma {:induction false} UnmatchedMembers(txns: seq<NewTransaction>, rules: seq<CategorizationRule>)
    ensures forall tx :: tx in Unmatched(txns, rules) <==> tx in txns && MatchRule(rules, tx.description).None?
  {
    if txns != [] {
      var init, tx := txns[..|txns| - 1], txns[|txns| - 1];
      UnmatchedMembers(init, rules);
      assert txns == init + [tx];
    }
  }

  /** The unmatched list keeps the input order: it distributes over concatenation. */
  lemma {:induction false} UnmatchedAppend(xs: seq<NewTransaction>, ys: seq<NewTransaction>, rules: seq<CategorizationRule>)
    ensures Unmatched(xs + ys, rules) == Unmatched(xs, rules) + Unmatched(ys, rules)
    decreases |ys|
  {
    if ys == [] {
      assert xs + ys == xs;
    } else {
      var ys', y := ys[..|ys| - 1], ys[|ys| - 1];
      assert (xs + ys)[..|xs + ys| - 1] == xs + ys';
      assert (xs + ys)[|xs + ys| - 1] == y;
      UnmatchedAppend(xs, ys', rules);
    }
  }

  /** The table after the rule tier: each matched transaction, in order, gets
      its rule's category with method "rule", unless its update fails. */
  function RuleApplied(rows: map<string, TxRow>, txns: seq<NewTransaction>, rules: seq<CategorizationRule>,
                       failed: set<string>): (r: map<string, TxRow>)
    ensures r.Keys == rows.Keys
  {
    if txns == [] then rows
    else
      var before := RuleApplied(rows, txns[..|txns| - 1], rules, failed);
      var tx := txns[|txns| - 1];
      match MatchRule(rules, tx.description)
      case Some(m) => if tx.id in failed then before else Categorised(before, {tx.id}, m.categoryId, ByRule)
      case None => before
  }

  /** What the rule tier does to one row, given the transaction naming it. */
  function RuleOutcome(row: TxRow, tx: NewTransaction, rules: seq<CategorizationRule>, failed: set<string>): TxRow {
    match MatchRule(rules, tx.description)
    case Some(m) =>
      if tx.id in failed then row else row.(categoryId := Some(m.categoryId), classificationMethod := Some(ByRule))
    case None => row
  }

  /** The rule tier's effect on one row is that of the last transaction, applied
      after the others. */
  lemma RuleAppliedLast(rows: map<string, TxRow>, txns: seq<NewTransaction>, rules: seq<CategorizationRule>,
                        failed: set<string>, id: string)
    requires |txns| > 0 && id in rows
    ensures var before := RuleApplied(rows, txns[..|txns| - 1], rules, failed);
      RuleApplied(rows, txns, rules, failed)[id]
        == if txns[|txns| - 1].id == id then RuleOutcome(before[id], txns[|txns| - 1], rules, failed) else before[id]
  {
  }

  /** With distinct ids, a handed-in transaction's row ends with its rule's
      category and method "rule" when a rule matches and the update succeeds,
      and is untouched otherwise. */
  lemma {:induction false} RuleAppliedAt(rows: map<string, TxRow>, txns: seq<NewTransaction>, rules: seq<CategorizationRule>,
                                         failed: set<string>, i: int)
    requires 0 <= i < |txns| && txns[i].id in rows
    requires forall a, b :: 0 <= a < b < |txns| ==> txns[a].id != txns[b].id
    ensures RuleApplied(rows, txns, rules, failed)[txns[i].id] == RuleOutcome(rows[txns[i].id], txns[i], rules, failed)
  {
    var init := txns[..|txns| - 1];
    var id := txns[i].id;
    RuleAppliedLast(rows, txns, rules, failed, id);
    if i == |txns| - 1 {
      forall j | 0 <= j < |init| ensures init[j].id != id {
        assert init[j] == txns[j];
      }
      RuleAppliedElsewhere(rows, init, rules, failed, id);
    } else {
      assert init[i] == txns[i];
      forall a, b | 0 <= a < b < |init| ensures init[a].id != init[b].id {
        assert init[a] == txns[a] && init[b] == txns[b];
      }
      RuleAppliedAt(rows, init, rules, failed, i);
    }
  }

  /** A row that no handed-in transaction names is untouched by the rule tier. */
  lemma {:induction false} RuleAppliedElsewhere(rows: map<string, TxRow>, txns: seq<NewTransaction>, rules: seq<CategorizationRule>,
                                                failed: set<string>, id: string)
    requires id in rows
    requires forall i :: 0 <= i < |txns| ==> txns[i].id != id
    ensures RuleApplied(rows, txns, rules, failed)[id] == rows[id]
  {
    if txns != [] {
      var init := txns[..|txns| - 1];
      RuleAppliedLast(rows, txns, rules, failed, id);
      forall j | 0 <= j < |init| ensures init[j].id != id {
        assert init[j] == txns[j];
      }
      RuleAppliedElsewhere(rows, init, rules, failed, id);
    }
  }

  /** One step of the rule loop: match the transaction, update its row or
      set it aside. */
  method RuleStep(table: TransactionTable, tx: NewTransaction, rules: seq<CategorizationRule>, failed: set<string>)
    returns (matched: bool)
    requires table.Valid()
    modifies table
    ensures table.Valid()
    ensures matched <==> MatchRule(rules, tx.description).Some?
    ensures table.rows == (match MatchRule(rules, tx.description)
                           case Some(m) => if tx.id in failed then old(table.rows) else Categorised(old(table.rows), {tx.id}, m.categoryId, ByRule)
                           case None => old(table.rows))
  {
    var m := MatchRule(rules, tx.description);
    if m.Some? {
      if tx.id !in failed {
        table.SetCategory({tx.id}, m.value.categoryId, ByRule);
      }
      return true;
    }
    return false;
  }

  /** The rule loop: matched transactions are updated, the rest collected in order. */
  method ApplyRules(table: TransactionTable, txns: seq<NewTransaction>, rules: seq<CategorizationRule>, failed: set<string>)
    returns (unmatched: seq<NewTransaction>)
    requires table.Valid()
    modifies table
    ensures table.Valid()
    ensures unmatched == Unmatched(txns, rules)
    ensures table.rows == RuleApplied(old(table.rows), txns, rules, failed)
  {
    unmatched := [];
    var i := 0;
    while i < |txns|
      invariant 0 <= i <= |txns| && table.Valid()
      invariant unmatched == Unmatched(txns[..i], rules)
      invariant table.rows == RuleApplied(old(table.rows), txns[..i], rules, failed)
    {
      assert txns[..i + 1][..i] == txns[..i];
      var matched := RuleStep(table, txns[i], rules, failed);
      if !matched {
        unmatched := unmatched + [txns[i]];
      }
      i := i + 1;
    }
    assert txns[..|txns|] == txns;
  }

  // ---------------------------------------------------------------------
  // Category options

  /** A category with no (or an empty) parent id is a root. */
  predicate IsRoot(c: CategoryEntry) {
    !IsSet(c.parentId)
  }

  /** `parentNameMap`: each root's id mapped to its name; a later root with the
      same id overwrites an earlier one. */
  function RootNames(all: seq<CategoryEntry>): (m: map<string, string>) {
    if all == [] then map[]
    else
      var m := RootNames(all[..|all| - 1]);
      var c := all[|all| - 1];
      if IsRoot(c) then m[c.id := c.name] else m
  }

  /** The map holds exactly the roots' ids, each with the name of a root carrying it. */
  lemma {:induction false} RootNamesMembers(all: seq<CategoryEntry>)
    ensures forall id :: id in RootNames(all) <==> exists i :: 0 <= i < |all| && IsRoot(all[i]) && all[i].id == id
    ensures forall id :: id in RootNames(all) ==>
      exists i :: 0 <= i < |all| && IsRoot(all[i]) && all[i].id == id && all[i].name == RootNames(all)[id]
  {
    if all != [] {
      var init, c := all[..|all| - 1], all[|all| - 1];
      RootNamesMembers(init);
      assert RootNames(all) == if IsRoot(c) then RootNames(init)[c.id := c.name] else RootNames(init);
      forall id | id in RootNames(all)
        ensures exists i :: 0 <= i < |all| && IsRoot(all[i]) && all[i].id == id && all[i].name == RootNames(all)[id]
      {
        if !(IsRoot(c) && c.id == id) {
          var i :| 0 <= i < |init| && IsRoot(init[i]) && init[i].id == id && init[i].name == RootNames(init)[id];
          assert all[i] == init[i];
        }
      }
      forall id | exists i :: 0 <= i < |all| && IsRoot(all[i]) && all[i].id == id
        ensures id in RootNames(all)
      {
        var i :| 0 <= i < |all| && IsRoot(all[i]) && all[i].id == id;
        if i < |init| {
          assert init[i] == all[i];
        }
      }
    }
  }

  /** The loop building `parentNameMap`. */
  method BuildRootNames(all: seq<CategoryEntry>) returns (m: map<string, string>)
    ensures m == RootNames(all)
  {
    m := map[];
    var i := 0;
    while i < |all|
      invariant 0 <= i <= |all|
      invariant m == RootNames(all[..i])
    {
      assert all[..i + 1][..i] == all[..i];
      if IsRoot(all[i]) {
        m := m[all[i].id := all[i].name];
      }
      i := i + 1;
    }
    assert all[..|all|] == all;
  }

  /** One option: a category's parent name is looked up among the roots only. */
  function OptionOf(c: CategoryEntry, rootNames: map<string, string>): (o: CategoryWithParent)
    ensures o.id == c.id && o.name == c.name
    ensures o.parentName.Some? <==> IsSet(c.parentId) && c.parentId.value in rootNames
    ensures o.parentName.Some? ==> o.parentName.value == rootNames[c.parentId.value]
  {
    var parentName := if IsSet(c.parentId) && c.parentId.value in rootNames then Some(rootNames[c.parentId.value]) else None;
    CategoryWithParent(c.id, c.name, parentName)
  }

  /** `allCategories.map(...)`: one option per category, in order. */
  function Options(all: seq<CategoryEntry>, rootNames: map<string, string>): (r: seq<CategoryWithParent>)
    ensures |r| == |all|
    ensures forall i :: 0 <= i < |all| ==> r[i] == OptionOf(all[i], rootNames)
  {
    seq(|all|, i requires 0 <= i < |all| => OptionOf(all[i], rootNames))
  }

  /** A parent name is filled in exactly when the parent is a listed root, and
      then it is that root's name; a category under a non-root or missing
      parent is offered without one. */
  lemma ParentNameFromRoot(all: seq<CategoryEntry>, i: int)
    requires 0 <= i < |all|
    ensures var o := Options(all, RootNames(all))[i];
      (o.parentName.Some? <==>
        IsSet(all[i].parentId) && exists j :: 0 <= j < |all| && IsRoot(all[j]) && all[j].id == all[i].parentId.value)
    ensures var o := Options(all, RootNames(all))[i];
      o.parentName.Some? ==>
        exists j :: 0 <= j < |all| && IsRoot(all[j]) && all[j].id == all[i].parentId.value && all[j].name == o.parentName.value
  {
    RootNamesMembers(all);
  }

  /** The options offered to the model have exactly the ids of the categories. */
  lemma OptionIdsOfOptions(all: seq<CategoryEntry>, rootNames: map<string, string>)
    ensures OptionIds(Options(all, rootNames)) == set c | c in all :: c.id
  {
    var opts := Options(all, rootNames);
    forall id | id in OptionIds(opts) ensures id in set c | c in all :: c.id {
      var o :| o in opts && o.id == id;
      var i :| 0 <= i < |opts| && opts[i] == o;
      assert all[i].id == id;
    }
    forall id | id in set c | c in all :: c.id ensures id in OptionIds(opts) {
      var c :| c in all && c.id == id;
      var i :| 0 <= i < |all| && all[i] == c;
      assert opts[i].id == id;
    }
  }

  // ---------------------------------------------------------------------
  // Tier 2: the AI

  /** Only the category and the method of a row differ, and the category is
      one of `ids` and the method "ai". */
  predicate AiTouched(before: TxRow, after: TxRow, ids: set<string>) {
    after.categoryId.Some? && after.categoryId.value in ids && after.classificationMethod == Some(ByAi)
    && after == before.(categoryId := after.categoryId, classificationMethod := after.classificationMethod)
  }

  /** Every row that changed was set by the AI to one of `ids`; no row appeared or vanished. */
  ghost predicate OnlyAiChanges(before: map<string, TxRow>, after: map<string, TxRow>, ids: set<string>) {
    before.Keys == after.Keys
    && forall id :: id in after && after[id] != before[id] ==> AiTouched(before[id], after[id], ids)
  }

  lemma OnlyAiChangesCompose(a: map<string, TxRow>, b: map<string, TxRow>, c: map<string, TxRow>, ids: set<string>)
    requires OnlyAiChanges(a, b, ids) && OnlyAiChanges(b, c, ids)
    ensures OnlyAiChanges(a, c, ids)
  {
    forall id | id in c && c[id] != a[id] ensures AiTouched(a[id], c[id], ids) {
      if b[id] != a[id] && c[id] != b[id] {
        assert AiTouched(a[id], b[id], ids) && AiTouched(b[id], c[id], ids);
      }
    }
  }

  /** The table after the answers of one batch are applied in order, each one
      that does not fail setting its transaction's category with method "ai". */
  function AiApplied(rows: map<string, TxRow>, results: seq<AiClassification>, failed: set<string>): (r: map<string, TxRow>)
    ensures r.Keys == rows.Keys
  {
    if results == [] then rows
    else
      var before := AiApplied(rows, results[..|results| - 1], failed);
      var c := results[|results| - 1];
      if c.transactionId in failed then before else Categorised(before, {c.transactionId}, c.categoryId, ByAi)
  }

  /** Applying answers whose categories are all in `ids` changes rows only to
      an AI classification with one of `ids`. */
  lemma {:induction false} AiAppliedOnlyAi(rows: map<string, TxRow>, results: seq<AiClassification>, failed: set<string>,
                                           ids: set<string>)
    requires forall c :: c in results ==> c.categoryId in ids
    ensures OnlyAiChanges(rows, AiApplied(rows, results, failed), ids)
  {
    if results != [] {
      var init, c := results[..|results| - 1], results[|results| - 1];
      assert forall x :: x in init ==> x in results;
      AiAppliedOnlyAi(rows, init, failed, ids);
      var before := AiApplied(rows, init, failed);
      if c.transactionId !in failed {
        var after := Categorised(before, {c.transactionId}, c.categoryId, ByAi);
        assert OnlyAiChanges(before, after, ids);
        OnlyAiChangesCompose(rows, before, after, ids);
      }
    }
  }

  /** The last answer for a transaction decides its row: a row named by an
      answer that does not fail, and by no later answer, ends with that
      answer's category and method "ai". */
  lemma {:induction false} AiAppliedAt(rows: map<string, TxRow>, results: seq<AiClassification>, failed: set<string>, k: int)
    requires 0 <= k < |results| && results[k].transactionId in rows && results[k].transactionId !in failed
    requires forall j :: k < j < |results| ==> results[j].transactionId != results[k].transactionId
    ensures AiApplied(rows, results, failed)[results[k].transactionId].categoryId == Some(results[k].categoryId)
    ensures AiApplied(rows, results, failed)[results[k].transactionId].classificationMethod == Some(ByAi)
  {
    var init := results[..|results| - 1];
    if k < |results| - 1 {
      assert init[k] == results[k];
      AiAppliedAt(rows, init, failed, k);
    }
  }

  /** The loop over one batch's answers. */
  method ApplyAiResults(table: TransactionTable, results: seq<AiClassification>, failed: set<string>)
    requires table.Valid()
    modifies table
    ensures table.Valid()
    ensures table.rows == AiApplied(old(table.rows), results, failed)
  {
    var k := 0;
    while k < |results|
      invariant 0 <= k <= |results| && table.Valid()
      invariant table.rows == AiApplied(old(table.rows), results[..k], failed)
    {
      assert results[..k + 1][..k] == results[..k];
      var c := results[k];
      if c.transactionId !in failed {
        table.SetCategory({c.transactionId}, c.categoryId, ByAi);
      }
      k := k + 1;
    }
    assert results[..|results|] == results;
  }

  /** The transactions of a batch as the model sees them. */
  function Inputs(batch: seq<NewTransaction>): (r: seq<TransactionInput>)
    ensures |r| == |batch|
    ensures forall i :: 0 <= i < |batch| ==> r[i].id == batch[i].id && r[i].description == batch[i].description
  {
    seq(|batch|, i requires 0 <= i < |batch| => TransactionInput(batch[i].id, batch[i].description, batch[i].amount, batch[i].txType))
  }

  /** One batch: ask the model, apply its answers, or skip the batch when the
      call fails. */
  method ClassifyBatch(table: TransactionTable, batch: seq<NewTransaction>, options: seq<CategoryWithParent>,
                       apiKey: Option<string>, reply: Result<string>, parse: string -> Result<Json>, failed: set<string>)
    returns (askedModel: bool)
    requires table.Valid() && |batch| > 0 && IsSet(apiKey)
    modifies table
    ensures table.Valid() && askedModel
    ensures OnlyAiChanges(old(table.rows), table.rows, OptionIds(options))
  {
    var r;
    r, askedModel := ClassifyWithAi(Inputs(batch), options, apiKey, reply, parse);
    if r.Ok? {
      ApplyAiResults(table, r.value, failed);
      AiAppliedOnlyAi(old(table.rows), r.value, failed, OptionIds(options));
    }
  }

  /** The batch loop: slices of at most 20 unmatched transactions, stepping the
      index by 20, one model call per slice. */
  method ClassifyBatches(table: TransactionTable, unmatched: seq<NewTransaction>, options: seq<CategoryWithParent>,
                         apiKey: Option<string>, replies: nat -> Result<string>, parse: string -> Result<Json>,
                         failed: set<string>)
    returns (ghost batches: seq<seq<NewTransaction>>, modelCalls: nat)
    requires table.Valid() && IsSet(apiKey)
    modifies table
    ensures table.Valid()
    ensures Flatten(batches) == unmatched && Batched(batches, BatchSize)
    ensures modelCalls == |batches|
    ensures OnlyAiChanges(old(table.rows), table.rows, OptionIds(options))
  {
    batches := [];
    modelCalls := 0;
    var i := 0;
    while i < |unmatched|
      invariant table.Valid()
      invariant i == |batches| * BatchSize && modelCalls == |batches|
      invariant i <= |unmatched| ==> Flatten(batches) == unmatched[..i]
      invariant i > |unmatched| ==> Flatten(batches) == unmatched
      invariant Batched(batches, BatchSize)
      invariant OnlyAiChanges(old(table.rows), table.rows, OptionIds(options))
      decreases |unmatched| - i
    {
      var batch := Slice(unmatched, i, BatchSize);
      BatchStep(unmatched, batches, i, BatchSize);
      ghost var before := table.rows;
      var asked := ClassifyBatch(table, batch, options, apiKey, replies(modelCalls), parse, failed);
      OnlyAiChangesCompose(old(table.rows), before, table.rows, OptionIds(options));
      batches := batches + [batch];
      modelCalls := modelCalls + 1;
      i := i + BatchSize;
      if i >= |unmatched| {
        assert unmatched[..|unmatched|] == unmatched;
      }
    }
    if |unmatched| == 0 {
      assert unmatched[..0] == unmatched;
    }
  }

  /** `classifyTransactions`. `ruleQuery` and `categoryQuery` are what the two
      queries for the household return (`None` when the query throws),
      `replies(k)` is the model's reply to the `k`-th batch and `failed` the
      ids whose single-row update throws. An empty input changes nothing. The
      rule tier leaves the table as `RuleApplied` describes and sets aside the
      unmatched transactions in order; the model is asked only when some are
      unmatched, the API key is set and the categories could be read, once per
      slice of at most 20 that together cover the unmatched list; and the AI
      tier only ever sets a row to one of the household's category ids with
      method "ai". */
  method ClassifyTransactions(table: TransactionTable, newTxns: seq<NewTransaction>,
                              ruleQuery: Option<seq<CategorizationRule>>, apiKey: Option<string>,
                              categoryQuery: Option<seq<CategoryEntry>>,
                              replies: nat -> Result<string>, parse: string -> Result<Json>, failed: set<string>)
    returns (unmatched: seq<NewTransaction>, ghost afterRules: map<string, TxRow>,
             ghost batches: seq<seq<NewTransaction>>, modelCalls: nat)
    requires table.Valid()
    modifies table
    ensures table.Valid()
    ensures |newTxns| == 0 ==> table.rows == old(table.rows) && modelCalls == 0
    ensures |newTxns| > 0 ==> unmatched == Unmatched(newTxns, ruleQuery.GetOr([]))
    ensures |newTxns| > 0 ==> afterRules == RuleApplied(old(table.rows), newTxns, ruleQuery.GetOr([]), failed)
    ensures modelCalls > 0 ==> unmatched != [] && IsSet(apiKey) && categoryQuery.Some?
    ensures modelCalls == |batches| && Batched(batches, BatchSize)
    ensures |newTxns| > 0 && unmatched != [] && IsSet(apiKey) && categoryQuery.Some? ==> Flatten(batches) == unmatched
    ensures |newTxns| > 0 ==>
      OnlyAiChanges(afterRules, table.rows, set c | c in categoryQuery.GetOr([]) :: c.id)
  {
    unmatched, afterRules, batches, modelCalls := [], table.rows, [], 0;
    if |newTxns| == 0 {
      return;
    }
    var rules := ruleQuery.GetOr([]);
    unmatched := ApplyRules(table, newTxns, rules, failed);
    afterRules := table.rows;
    var ids := set c | c in categoryQuery.GetOr([]) :: c.id;
    if |unmatched| == 0 || !IsSet(apiKey) || categoryQuery.None? {
      return;
    }
    var all := categoryQuery.value;
    var rootNames := BuildRootNames(all);
    var options := Options(all, rootNames);
    OptionIdsOfOptions(all, rootNames);
    batches, modelCalls := ClassifyBatches(table, unmatched, options, apiKey, replies, parse, failed);
  }
}
