/** The ingestion of scraped transactions: every transaction of a batch is
    offered to the `transactions` table with `on conflict do nothing`, the
    inserted and the skipped ones are counted, the account's `lastSyncedAt` is
    stamped and one sync log records the run. The clock, the date parser
    behind `new Date(text)` and `encrypt(JSON.stringify(tx))` come from
    outside. */
module Ingest {
  import opened Common
  import opened Db
  import opened ScraperTransform
  import opened Classify

  /** The outside world one insert depends on: `parseDate` is `new Date(text)`
      (None for an Invalid Date, which the driver refuses when it formats the
      timestamp) and `encrypt` is the encryption of the transaction's JSON
      text (None when it throws, as it does without a valid key). */
  datatype Env = Env(parseDate: string -> Option<int>, encrypt: TransformedTransaction -> Option<string>)

  /** `IngestResult`: the two counts and the rows inserted, for classification. */
  datatype IngestResult = IngestResult(added: nat, duplicates: nat, newlyInserted: seq<NewTransaction>)

  // ---------------------------------------------------------------------
  // One insert

  /** `numeric(12, 2)` holds magnitudes below 10^10, that is 10^12 agorot. */
  const AmountLimit: int := 1_000_000_000_000

  /** The values satisfy the column types of `transactions`: the lengths of
      the `varchar` columns and the precision of `amount`. A row that breaks
      one of them makes the insert throw. */
  predicate FitsColumns(t: NewTx) {
    |t.externalId| <= 255
    && |t.description| <= 500
    && (t.originalDescription.Some? ==> |t.originalDescription.value| <= 500)
    && |t.currency| <= 3
    && (t.memo.Some? ==> |t.memo.value| <= 500)
    && -AmountLimit < t.amount < AmountLimit
  }

  /** The values of the insert, or None when building them throws (no key
      for `encrypt`, or a date that does not parse). */
  function InsertValues(householdId: string, accountId: string, tx: TransformedTransaction, env: Env): (r: Option<NewTx>)
    ensures r.None? <==>
      env.encrypt(tx).None? || env.parseDate(tx.date).None?
      || (IsSet(tx.processedDate) && env.parseDate(tx.processedDate.value).None?)
    ensures r.Some? ==>
      && r.value.householdId == householdId && r.value.accountId == accountId
      && r.value.externalId == tx.externalId
      && r.value.date == env.parseDate(tx.date).value
      && r.value.processedDate == (if IsSet(tx.processedDate) then env.parseDate(tx.processedDate.value) else None)
      && r.value.description == tx.description && r.value.originalDescription == tx.originalDescription
      && r.value.amount == tx.amount && r.value.currency == tx.currency.GetOr("ILS")
      && r.value.txType == tx.txType && r.value.encryptedRawPayload == env.encrypt(tx).value
      && r.value.memo == tx.memo
  {
    var payload := env.encrypt(tx);
    var date := env.parseDate(tx.date);
    var processed := if IsSet(tx.processedDate) then env.parseDate(tx.processedDate.value) else None;
    if payload.None? || date.None? || (IsSet(tx.processedDate) && processed.None?) then None
    else
      Some(NewTx(householdId, accountId, tx.externalId, date.value, processed, tx.description,
        tx.originalDescription, tx.amount, tx.currency.GetOr("ILS"), tx.txType, payload.value, tx.memo))
  }

  /** The row the table is offered, when the insert does not throw. */
  function Accepted(householdId: string, accountId: string, tx: TransformedTransaction, env: Env): (r: Option<NewTx>)
    ensures r.Some? <==> InsertValues(householdId, accountId, tx, env).Some? && FitsColumns(InsertValues(householdId, accountId, tx, env).value)
    ensures r.Some? ==> r == InsertValues(householdId, accountId, tx, env)
  {
    var values := InsertValues(householdId, accountId, tx, env);
    if values.Some? && FitsColumns(values.value) then values else None
  }

  // ---------------------------------------------------------------------
  // The batch, as a specification

  /** The external ids of some rows. */
  function Keys(rows: seq<NewTx>): set<string> {
    set k | 0 <= k < |rows| :: rows[k].externalId
  }

  lemma KeysAppend(rows: seq<NewTx>, row: NewTx)
    ensures Keys(rows + [row]) == Keys(rows) + {row.externalId}
  {
    var all := rows + [row];
    assert all[|rows|].externalId in Keys(all);
    forall e | e in Keys(all)
      ensures e in Keys(rows) + {row.externalId}
    {
      var k :| 0 <= k < |all| && all[k].externalId == e;
      if k < |rows| {
        assert rows[k].externalId == e;
      }
    }
    forall e | e in Keys(rows)
      ensures e in Keys(all)
    {
      var k :| 0 <= k < |rows| && rows[k].externalId == e;
      assert all[k].externalId == e;
    }
  }

  /** The external ids of an account's rows in a table. */
  function ExternalIds(rows: map<string, TxRow>, accountId: string): set<string> {
    set id | id in rows && rows[id].accountId == accountId && rows[id].externalId.Some? :: rows[id].externalId.value
  }

  /** The rows a batch inserts, in input order: each transaction whose insert
      does not throw and whose external id is neither `taken` by the account
      already nor by a row inserted earlier in the same batch. */
  function Inserts(taken: set<string>, householdId: string, accountId: string, txns: seq<TransformedTransaction>, env: Env)
    : (r: seq<NewTx>)
    ensures |r| <= |txns|
  {
    if txns == [] then []
    else
      var earlier := Inserts(taken, householdId, accountId, txns[..|txns| - 1], env);
      match Accepted(householdId, accountId, txns[|txns| - 1], env)
      case None => earlier
      case Some(row) => if row.externalId in taken + Keys(earlier) then earlier else earlier + [row]
  }

  /** The step of the definition on a prefix. */
  lemma InsertsStep(taken: set<string>, householdId: string, accountId: string, txns: seq<TransformedTransaction>, env: Env, i: int)
    requires 0 <= i < |txns|
    ensures var earlier := Inserts(taken, householdId, accountId, txns[..i], env);
      Inserts(taken, householdId, accountId, txns[..i + 1], env)
        == match Accepted(householdId, accountId, txns[i], env)
           case None => earlier
           case Some(row) => if row.externalId in taken + Keys(earlier) then earlier else earlier + [row]
  {
    assert txns[..i + 1][..i] == txns[..i];
  }

  /** Rows of the account and household, none with a `taken` external id,
      no two with the same one. */
  predicate FreshRows(rows: seq<NewTx>, taken: set<string>, householdId: string, accountId: string) {
    (forall k :: 0 <= k < |rows| ==> rows[k].accountId == accountId && rows[k].householdId == householdId)
    && (forall k :: 0 <= k < |rows| ==> rows[k].externalId !in taken)
    && (forall k, l :: 0 <= k < l < |rows| ==> rows[k].externalId != rows[l].externalId)
  }

  /** Every inserted row belongs to the account, was not taken before, and no
      two inserted rows share an external id: the batch never breaks the
      unique index. */
  lemma {:induction false} InsertsFresh(taken: set<string>, householdId: string, accountId: string,
                                        txns: seq<TransformedTransaction>, env: Env)
    ensures FreshRows(Inserts(taken, householdId, accountId, txns, env), taken, householdId, accountId)
  {
    if txns != [] {
      var earlier := Inserts(taken, householdId, accountId, txns[..|txns| - 1], env);
      InsertsFresh(taken, householdId, accountId, txns[..|txns| - 1], env);
      var accepted := Accepted(householdId, accountId, txns[|txns| - 1], env);
      if accepted.Some? && accepted.value.externalId !in taken + Keys(earlier) {
        var row := accepted.value;
        var r := earlier + [row];
        assert Inserts(taken, householdId, accountId, txns, env) == r;
        assert row.accountId == accountId && row.householdId == householdId by {
          assert row == InsertValues(householdId, accountId, txns[|txns| - 1], env).value;
        }
        forall k, l | 0 <= k < l < |r|
          ensures r[k].externalId != r[l].externalId
        {
          if l == |earlier| {
            assert earlier[k].externalId in Keys(earlier);
          } else {
            assert r[k] == earlier[k] && r[l] == earlier[l];
          }
        }
        forall k | 0 <= k < |r|
          ensures r[k].accountId == accountId && r[k].householdId == householdId && r[k].externalId !in taken
        {
          if k < |earlier| {
            assert r[k] == earlier[k];
          }
        }
      } else {
        assert Inserts(taken, householdId, accountId, txns, env) == earlier;
      }
    }
  }

  /** Every transaction whose insert would not throw has its external id
      taken once the batch is through: inserted now, or already there. */
  lemma {:induction false} InsertsCover(taken: set<string>, householdId: string, accountId: string,
                                        txns: seq<TransformedTransaction>, env: Env)
    ensures forall i :: 0 <= i < |txns| && Accepted(householdId, accountId, txns[i], env).Some? ==>
      txns[i].externalId in taken + Keys(Inserts(taken, householdId, accountId, txns, env))
  {
    if txns != [] {
      var init := txns[..|txns| - 1];
      var earlier := Inserts(taken, householdId, accountId, init, env);
      InsertsCover(taken, householdId, accountId, init, env);
      var r := Inserts(taken, householdId, accountId, txns, env);
      assert Keys(earlier) <= Keys(r) by {
        if r != earlier {
          KeysAppend(earlier, r[|r| - 1]);
          assert r == earlier + [r[|r| - 1]];
        }
      }
      forall i | 0 <= i < |txns| && Accepted(householdId, accountId, txns[i], env).Some?
        ensures txns[i].externalId in taken + Keys(r)
      {
        if i < |init| {
          assert init[i] == txns[i];
        } else if r != earlier {
          KeysAppend(earlier, Accepted(householdId, accountId, txns[i], env).value);
        }
      }
    }
  }

  /** A batch whose every insertable transaction is already taken inserts nothing. */
  lemma {:induction false} InsertsNothing(taken: set<string>, householdId: string, accountId: string,
                                          txns: seq<TransformedTransaction>, env: Env)
    requires forall i :: 0 <= i < |txns| && Accepted(householdId, accountId, txns[i], env).Some? ==>
      txns[i].externalId in taken
    ensures Inserts(taken, householdId, accountId, txns, env) == []
  {
    if txns != [] {
      var init := txns[..|txns| - 1];
      forall i | 0 <= i < |init| && Accepted(householdId, accountId, init[i], env).Some?
        ensures init[i].externalId in taken
      {
        assert init[i] == txns[i];
      }
      InsertsNothing(taken, householdId, accountId, init, env);
      assert Keys([]) == {};
    }
  }

  /** Ingesting the same batch again for the same account inserts nothing. */
  lemma ReingestAddsNothing(taken: set<string>, householdId: string, accountId: string,
                            txns: seq<TransformedTransaction>, env: Env)
    ensures var first := Inserts(taken, householdId, accountId, txns, env);
      Inserts(taken + Keys(first), householdId, accountId, txns, env) == []
  {
    InsertsCover(taken, householdId, accountId, txns, env);
    InsertsNothing(taken + Keys(Inserts(taken, householdId, accountId, txns, env)), householdId, accountId, txns, env);
  }

  // ---------------------------------------------------------------------
  // The batch, as the loop runs it

  /** What the batch reports for an inserted row: its id, description,
      amount text and type. */
  function Report(id: string, row: NewTx): (r: NewTransaction)
    ensures r.id == id && r.description == row.description && r.txType == row.txType
    ensures r.amount == AmountText(row.amount)
  {
    NewTransaction(id, row.description, AmountText(row.amount), row.txType)
  }

  /** The ids of the reported rows. */
  function Ids(newly: seq<NewTransaction>): set<string> {
    set k | 0 <= k < |newly| :: newly[k].id
  }

  lemma IdsAppend(newly: seq<NewTransaction>, entry: NewTransaction)
    ensures Ids(newly + [entry]) == Ids(newly) + {entry.id}
  {
    var all := newly + [entry];
    assert all[|newly|].id in Ids(all);
    forall e | e in Ids(all)
      ensures e in Ids(newly) + {entry.id}
    {
      var k :| 0 <= k < |all| && all[k].id == e;
      if k < |newly| {
        assert newly[k].id == e;
      }
    }
    forall e | e in Ids(newly)
      ensures e in Ids(all)
    {
      var k :| 0 <= k < |newly| && newly[k].id == e;
      assert all[k].id == e;
    }
  }

  /** The table `after` is `before` plus one new row per planned insert, under
      the ids reported in `newly`, each report carrying the row's description,
      amount text and type; no existing row changed. */
  predicate Extends(before: map<string, TxRow>, after: map<string, TxRow>, newly: seq<NewTransaction>, plan: seq<NewTx>) {
    |newly| == |plan|
    && after.Keys == before.Keys + Ids(newly)
    && (forall id :: id in before ==> id in after && after[id] == before[id])
    && (forall k :: 0 <= k < |newly| ==>
          newly[k].id !in before && newly[k].id in after && after[newly[k].id] == TxRowOf(plan[k])
          && newly[k] == Report(newly[k].id, plan[k]))
  }

  /** Inserting a row adds its external id to its account's and to no other. */
  lemma ExternalIdsInsert(rows: map<string, TxRow>, id: string, row: NewTx, accountId: string)
    requires id !in rows
    ensures ExternalIds(rows[id := TxRowOf(row)], accountId)
      == ExternalIds(rows, accountId) + (if row.accountId == accountId then {row.externalId} else {})
  {
    var after := rows[id := TxRowOf(row)];
    assert after[id].externalId == Some(row.externalId);
    forall e | e in ExternalIds(after, accountId)
      ensures e in ExternalIds(rows, accountId) || (row.accountId == accountId && e == row.externalId)
    {
      var x :| x in after && after[x].accountId == accountId && after[x].externalId == Some(e);
      if x != id {
        assert rows[x] == after[x];
      }
    }
    forall e | e in ExternalIds(rows, accountId)
      ensures e in ExternalIds(after, accountId)
    {
      var x :| x in rows && rows[x].accountId == accountId && rows[x].externalId == Some(e);
      assert after[x] == rows[x];
    }
  }

  /** One more insert keeps `Extends`. */
  lemma ExtendsInsert(before: map<string, TxRow>, rows: map<string, TxRow>, newly: seq<NewTransaction>, plan: seq<NewTx>,
                      id: string, row: NewTx)
    requires Extends(before, rows, newly, plan) && id !in rows
    ensures Extends(before, rows[id := TxRowOf(row)], newly + [Report(id, row)], plan + [row])
  {
    var after := rows[id := TxRowOf(row)];
    var newly', plan' := newly + [Report(id, row)], plan + [row];
    IdsAppend(newly, Report(id, row));
    forall k | 0 <= k < |newly'|
      ensures newly'[k].id !in before && newly'[k].id in after && after[newly'[k].id] == TxRowOf(plan'[k])
      ensures newly'[k] == Report(newly'[k].id, plan'[k])
    {
      if k < |newly| {
        assert newly'[k] == newly[k] && plan'[k] == plan[k];
      }
    }
  }

  /** Whether the table holds the key, in terms of the account's external ids. */
  lemma TakenIff(table: TransactionTable, accountId: string, externalId: string)
    ensures table.HasKey(accountId, externalId) <==> externalId in ExternalIds(table.rows, accountId)
  {
    if externalId in ExternalIds(table.rows, accountId) {
      var id :| id in table.rows && table.rows[id].accountId == accountId && table.rows[id].externalId == Some(externalId);
    }
  }

  /** One transaction of the batch offered to the table with `on conflict do
      nothing`. `plan` and `newly` are the rows inserted so far and their
      reports; `added` says whether this one was inserted. */
  method Offer(householdId: string, accountId: string, tx: TransformedTransaction, env: Env,
               transactions: TransactionTable, ghost orig: map<string, TxRow>, ghost taken: set<string>,
               ghost plan: seq<NewTx>, newly: seq<NewTransaction>)
    returns (added: bool, newlyAfter: seq<NewTransaction>, ghost planAfter: seq<NewTx>)
    requires transactions.Valid()
    requires Extends(orig, transactions.rows, newly, plan)
    requires ExternalIds(transactions.rows, accountId) == taken + Keys(plan)
    modifies transactions
    ensures transactions.Valid()
    ensures planAfter == match Accepted(householdId, accountId, tx, env)
                         case None => plan
                         case Some(row) => if row.externalId in taken + Keys(plan) then plan else plan + [row]
    ensures added <==> |planAfter| == |plan| + 1
    ensures Extends(orig, transactions.rows, newlyAfter, planAfter)
    ensures ExternalIds(transactions.rows, accountId) == taken + Keys(planAfter)
  {
    added, newlyAfter, planAfter := false, newly, plan;
    var values := InsertValues(householdId, accountId, tx, env);
    if values.None? || !FitsColumns(values.value) {
      // the insert throws
      return;
    }
    var row := values.value;
    TakenIff(transactions, accountId, row.externalId);
    ghost var rows := transactions.rows;
    var inserted := transactions.InsertOrIgnore(row);
    if inserted.Some? {
      var entry := NewTransaction(inserted.value, tx.description, AmountText(tx.amount), tx.txType);
      assert entry == Report(inserted.value, row);
      ExtendsInsert(orig, rows, newly, plan, inserted.value, row);
      ExternalIdsInsert(rows, inserted.value, row, accountId);
      KeysAppend(plan, row);
      added, newlyAfter, planAfter := true, newly + [entry], plan + [row];
    }
  }

  /** The loop over the batch shared by `ingestTransactions` and the webhook:
      each transaction is offered with `on conflict do nothing`; an insert
      that returns a row counts as added, one that returns none or throws
      counts as a duplicate, and the loop goes on either way. */
  method InsertBatch(householdId: string, accountId: string, txns: seq<TransformedTransaction>, env: Env,
                     transactions: TransactionTable) returns (result: IngestResult)
    requires transactions.Valid()
    modifies transactions
    ensures transactions.Valid()
    ensures var plan := Inserts(ExternalIds(old(transactions.rows), accountId), householdId, accountId, txns, env);
      result.added == |plan| && result.added + result.duplicates == |txns|
      && Extends(old(transactions.rows), transactions.rows, result.newlyInserted, plan)
  {
    ghost var taken := ExternalIds(transactions.rows, accountId);
    ghost var plan: seq<NewTx> := [];
    var added, duplicates := 0, 0;
    var newlyInserted: seq<NewTransaction> := [];
    for i := 0 to |txns|
      invariant transactions.Valid()
      invariant plan == Inserts(taken, householdId, accountId, txns[..i], env)
      invariant added == |plan| && added + duplicates == i
      invariant Extends(old(transactions.rows), transactions.rows, newlyInserted, plan)
      invariant ExternalIds(transactions.rows, accountId) == taken + Keys(plan)
    {
      InsertsStep(taken, householdId, accountId, txns, env, i);
      var inserted;
      inserted, newlyInserted, plan := Offer(householdId, accountId, txns[i], env, transactions, old(transactions.rows),
                                             taken, plan, newlyInserted);
      if inserted {
        added := added + 1;
      } else {
        duplicates := duplicates + 1;
      }
    }
    assert txns[..|txns|] == txns;
    result := IngestResult(added, duplicates, newlyInserted);
  }

  /** `ingestTransactions`: the batch loop, then `lastSyncedAt` stamped and one
      success log with the two counts, whatever the batch held. The three
      clock readings are `startedAt`, `syncedAt` and `completedAt`. */
  method IngestTransactions(accountId: string, householdId: string, txns: seq<TransformedTransaction>, env: Env,
                            startedAt: int, syncedAt: int, completedAt: int,
                            transactions: TransactionTable, accounts: AccountTable, syncLogs: SyncLogTable)
    returns (result: IngestResult)
    requires transactions.Valid() && accounts.Valid()
    modifies transactions, accounts, syncLogs
    ensures transactions.Valid() && accounts.Valid()
    ensures var plan := Inserts(ExternalIds(old(transactions.rows), accountId), householdId, accountId, txns, env);
      result.added == |plan| && result.added + result.duplicates == |txns|
      && Extends(old(transactions.rows), transactions.rows, result.newlyInserted, plan)
    ensures accounts.rows == if accountId in old(accounts.rows)
      then old(accounts.rows)[accountId := old(accounts.rows)[accountId].(lastSyncedAt := Some(syncedAt))]
      else old(accounts.rows)
    ensures syncLogs.logs == old(syncLogs.logs)
      + [SyncLog(accountId, Success, result.added, result.duplicates, None, startedAt, Some(completedAt))]
  {
    result := InsertBatch(householdId, accountId, txns, env, transactions);
    accounts.SetLastSyncedAt(accountId, syncedAt);
    syncLogs.Append(SyncLog(accountId, Success, result.added, result.duplicates, None, startedAt, Some(completedAt)));
  }

  /** `logScrapeError`: one error log with zero counts, started and completed
      at the same instant. */
  method LogScrapeError(accountId: string, error: string, now: int, syncLogs: SyncLogTable)
    modifies syncLogs
    ensures syncLogs.logs == old(syncLogs.logs) + [SyncLog(accountId, Failure, 0, 0, Some(error), now, Some(now))]
  {
    syncLogs.Append(SyncLog(accountId, Failure, 0, 0, Some(error), now, Some(now)));
  }
}
