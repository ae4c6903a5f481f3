/** The database tables the core reads and writes, each held by an object whose
    methods are the SQL statements the application issues against it. Rows are
    keyed by their primary key; ids the database generates (`defaultRandom()`)
    are drawn from a per-table counter, so a new id is never already in use.
    The unique indexes of the schema are the `Valid()` invariants of their
    tables. Timestamps are integers: calendar dates are day numbers,
    instants (sync times, challenge expiry) are milliseconds. */
module Db {
  import opened Common
  import Base64

  // ---------------------------------------------------------------------
  // Generated ids

  /** The id the database hands out as the `n`-th row of a table tagged `tag`. */
  function NewId(tag: string, n: nat): (id: string)
    ensures tag <= id
  {
    tag + ":" + NatToString(n)
  }

  /** Distinct counters give distinct ids. */
  lemma NewIdInjective(tag: string, a: nat, b: nat)
    requires NewId(tag, a) == NewId(tag, b)
    ensures a == b
  {
    var p := tag + ":";
    assert NewId(tag, a)[|p|..] == NatToString(a);
    assert NewId(tag, b)[|p|..] == NatToString(b);
    NatToStringInjective(a, b);
  }

  // ---------------------------------------------------------------------
  // Ordered selection

  /** `select id from t where keep order by key`: the ids of the rows that
      satisfy `keep`, each once, in ascending `key` order; rows with equal
      keys come in an order the database picks. */
  method SelectOrdered<R>(rows: map<string, R>, keep: R -> bool, key: R -> int) returns (ids: seq<string>)
    ensures forall i :: 0 <= i < |ids| ==> ids[i] in rows && keep(rows[ids[i]])
    ensures forall id :: id in rows && keep(rows[id]) ==> id in ids
    ensures forall i, j :: 0 <= i < j < |ids| ==> ids[i] != ids[j]
    ensures forall i, j :: 0 <= i < j < |ids| ==> key(rows[ids[i]]) <= key(rows[ids[j]])
  {
    var remaining := set id | id in rows && keep(rows[id]);
    ids := [];
    while remaining != {}
      invariant Selecting(rows, keep, key, ids, remaining)
      decreases |remaining|
    {
      LeastExists(remaining, rows, key);
      var id :| id in remaining && forall o :: o in remaining ==> key(rows[id]) <= key(rows[o]);
      SelectingStep(rows, keep, key, ids, remaining, id);
      ids := ids + [id];
      remaining := remaining - {id};
    }
  }

  /** The state of the selection: `ids` picked so far, in order and each
      once, all keys at most those of the rows still `remaining`, and every
      kept row in one of the two. */
  ghost predicate Selecting<R>(rows: map<string, R>, keep: R -> bool, key: R -> int, ids: seq<string>,
                               remaining: set<string>)
  {
    && (forall id :: id in remaining ==> id in rows && keep(rows[id]))
    && (forall i :: 0 <= i < |ids| ==> ids[i] in rows && keep(rows[ids[i]]) && ids[i] !in remaining)
    && (forall id :: id in rows && keep(rows[id]) ==> id in remaining || id in ids)
    && (forall i, j :: 0 <= i < j < |ids| ==> ids[i] != ids[j])
    && (forall i, j :: 0 <= i < j < |ids| ==> key(rows[ids[i]]) <= key(rows[ids[j]]))
    && (forall i, id :: 0 <= i < |ids| && id in remaining ==> key(rows[ids[i]]) <= key(rows[id]))
  }

  /** Picking a remaining row of least key keeps the selection in order. */
  lemma SelectingStep<R>(rows: map<string, R>, keep: R -> bool, key: R -> int, ids: seq<string>,
                         remaining: set<string>, id: string)
    requires Selecting(rows, keep, key, ids, remaining)
    requires id in remaining && forall o :: o in remaining ==> key(rows[id]) <= key(rows[o])
    ensures Selecting(rows, keep, key, ids + [id], remaining - {id})
  {
    var picked := ids + [id];
    assert forall i :: 0 <= i < |ids| ==> picked[i] == ids[i];
  }

  /** A non-empty set of rows has one with the least key. */
  lemma LeastExists<R>(ids: set<string>, rows: map<string, R>, key: R -> int)
    requires ids != {}
    requires forall id :: id in ids ==> id in rows
    ensures exists id :: id in ids && forall o :: o in ids ==> key(rows[id]) <= key(rows[o])
  {
    var x :| x in ids;
    if ids != {x} {
      LeastExists(ids - {x}, rows, key);
      var m :| m in ids - {x} && forall o :: o in ids - {x} ==> key(rows[m]) <= key(rows[o]);
      if key(rows[m]) <= key(rows[x]) {
        assert forall o :: o in ids ==> key(rows[m]) <= key(rows[o]);
      } else {
        assert forall o :: o in ids ==> key(rows[x]) <= key(rows[o]);
      }
    }
  }

  // ---------------------------------------------------------------------
  // Row types

  datatype TxType = Income | Expense | Transfer
  datatype ClassificationMethod = ByRule | ByAi
  datatype AccountType = Bank | CreditCard
  datatype SyncStatus = Success | Failure

  /** A row of `transactions`; `amount` is the magnitude in agorot. */
  datatype TxRow = TxRow(
    householdId: string,
    accountId: string,
    externalId: Option<string>,
    date: int,
    processedDate: Option<int>,
    description: string,
    originalDescription: Option<string>,
    amount: int,
    currency: string,
    txType: TxType,
    categoryId: Option<string>,
    isCategoryOverridden: bool,
    classificationMethod: Option<ClassificationMethod>,
    encryptedRawPayload: Option<string>,
    memo: Option<string>)

  /** A row of `financial_accounts`; `startingBalance` in agorot. */
  datatype AccountRow = AccountRow(
    householdId: string,
    name: string,
    institution: string,
    accountType: AccountType,
    lastFourDigits: Option<string>,
    encryptedCredentials: Option<string>,
    isActive: bool,
    lastSyncedAt: Option<int>,
    startingBalance: int,
    billingDay: Option<int>,
    createdAt: int)

  /** A row of `sync_logs`. */
  datatype SyncLog = SyncLog(
    accountId: string,
    status: SyncStatus,
    transactionsAdded: nat,
    transactionsDuplicate: nat,
    errorMessage: Option<string>,
    startedAt: int,
    completedAt: Option<int>)

  /** A row of `categories`. */
  datatype CategoryRow = CategoryRow(
    householdId: string,
    name: string,
    icon: Option<string>,
    color: Option<string>,
    parentId: Option<string>,
    isSystem: bool)

  /** A row of `categorization_rules`. */
  datatype RuleRow = RuleRow(householdId: string, pattern: string, categoryId: string, priority: int)

  /** The frequencies a recurring pattern can have. */
  datatype Frequency = Weekly | BiWeekly | Monthly | BiMonthly | Quarterly | SemiAnnual | Yearly

  /** A row of `recurring_patterns`; amounts in agorot, dates as day numbers. */
  datatype PatternRow = PatternRow(
    householdId: string,
    description: string,
    expectedAmount: real,
    frequency: Frequency,
    categoryId: Option<string>,
    accountId: Option<string>,
    lastOccurrence: Option<int>,
    nextExpectedDate: Option<int>,
    isActive: bool,
    confidence: real)

  /** A row of `challenges`; `expiresAt` in milliseconds. */
  datatype ChallengeRow = ChallengeRow(userId: Option<string>, challenge: string, expiresAt: int)

  /** A row of `webauthn_credentials`; its id is chosen by the authenticator. */
  datatype CredentialRow = CredentialRow(userId: string, publicKey: string, counter: int, transports: Option<seq<string>>)

  /** What `requireAuth` returns for a signed-in request. */
  datatype Session = Session(userId: string, householdId: string)

  datatype HouseholdRow = HouseholdRow(name: string)
  datatype UserRow = UserRow(householdId: string, displayName: string)

  /** The values an `insert` into `transactions` supplies; the other columns
      take their defaults. */
  datatype NewTx = NewTx(
    householdId: string,
    accountId: string,
    externalId: string,
    date: int,
    processedDate: Option<int>,
    description: string,
    originalDescription: Option<string>,
    amount: int,
    currency: string,
    txType: TxType,
    encryptedRawPayload: string,
    memo: Option<string>)

  function TxRowOf(t: NewTx): (r: TxRow)
    ensures r.accountId == t.accountId && r.externalId == Some(t.externalId)
    ensures r.categoryId.None? && !r.isCategoryOverridden && r.classificationMethod.None?
  {
    TxRow(t.householdId, t.accountId, Some(t.externalId), t.date, t.processedDate, t.description,
      t.originalDescription, t.amount, t.currency, t.txType, None, false, None,
      Some(t.encryptedRawPayload), t.memo)
  }

  // ---------------------------------------------------------------------
  // transactions

  class TransactionTable {
    var rows: map<string, TxRow>
    var nextSeq: nat

    /** Whether a row with this (accountId, externalId) exists. NULL external ids
        never conflict, as in SQL. */
    predicate HasKey(accountId: string, externalId: string)
      reads this
    {
      exists id :: id in rows && rows[id].accountId == accountId && rows[id].externalId == Some(externalId)
    }

    /** The unique index `tx_idempotent_idx` on (accountId, externalId), and the
        id counter ahead of every id in use. */
    ghost predicate Valid()
      reads this
    {
      (forall a, b ::
         (a in rows && b in rows && rows[a].accountId == rows[b].accountId
          && rows[a].externalId.Some? && rows[a].externalId == rows[b].externalId) ==> a == b)
      && (forall n: nat :: n >= nextSeq ==> NewId("tx", n) !in rows)
    }

    constructor ()
      ensures Valid() && rows == map[]
    {
      rows := map[];
      nextSeq := 0;
    }

    /** `insert ... on conflict (accountId, externalId) do nothing returning id`. */
    method InsertOrIgnore(t: NewTx) returns (inserted: Option<string>)
      requires Valid()
      modifies this
      ensures Valid()
      ensures inserted.None? <==> old(HasKey(t.accountId, t.externalId))
      ensures inserted.None? ==> rows == old(rows)
      ensures inserted.Some? ==> inserted.value !in old(rows) && rows == old(rows)[inserted.value := TxRowOf(t)]
      ensures HasKey(t.accountId, t.externalId)
    {
      if exists id :: id in rows && rows[id].accountId == t.accountId && rows[id].externalId == Some(t.externalId) {
        inserted := None;
      } else {
        var id := NewId("tx", nextSeq);
        rows := rows[id := TxRowOf(t)];
        forall n: nat | n >= nextSeq + 1
          ensures NewId("tx", n) !in rows
        {
          if NewId("tx", n) == id {
            NewIdInjective("tx", n, nextSeq);
          }
        }
        nextSeq := nextSeq + 1;
        inserted := Some(id);
        assert rows[id].accountId == t.accountId && rows[id].externalId == Some(t.externalId);
      }
    }

    /** `update transactions set categoryId, classificationMethod where id in ids`. */
    method SetCategory(ids: set<string>, categoryId: string, how: ClassificationMethod)
      requires Valid()
      modifies this
      ensures Valid()
      ensures rows == Categorised(old(rows), ids, categoryId, how)
      ensures nextSeq == old(nextSeq)
    {
      rows := Categorised(rows, ids, categoryId, how);
    }
  }

  /** The table after `update ... set categoryId, classificationMethod where id in ids`:
      the listed rows get the category and method, every other row is untouched. */
  function Categorised(rows: map<string, TxRow>, ids: set<string>, categoryId: string, how: ClassificationMethod): (r: map<string, TxRow>)
    ensures r.Keys == rows.Keys
    ensures forall id :: id in rows && id !in ids ==> r[id] == rows[id]
    ensures forall id :: id in rows && id in ids ==>
      r[id] == rows[id].(categoryId := Some(categoryId), classificationMethod := Some(how))
  {
    map id | id in rows :: if id in ids then rows[id].(categoryId := Some(categoryId), classificationMethod := Some(how)) else rows[id]
  }

  // ---------------------------------------------------------------------
  // financial_accounts

  class AccountTable {
    var rows: map<string, AccountRow>
    var nextSeq: nat

    ghost predicate Valid()
      reads this
    {
      forall n: nat :: n >= nextSeq ==> NewId("account", n) !in rows
    }

    constructor ()
      ensures Valid() && rows == map[]
    {
      rows := map[];
      nextSeq := 0;
    }

    /** `update financial_accounts set lastSyncedAt = at where id = accountId`:
        no row changes when the id is unknown. */
    method SetLastSyncedAt(accountId: string, at: int)
      requires Valid()
      modifies this
      ensures Valid() && nextSeq == old(nextSeq)
      ensures rows == if accountId in old(rows) then old(rows)[accountId := old(rows)[accountId].(lastSyncedAt := Some(at))] else old(rows)
    {
      if accountId in rows {
        rows := rows[accountId := rows[accountId].(lastSyncedAt := Some(at))];
      }
    }

    /** `insert into financial_accounts ... returning id`. */
    method Insert(row: AccountRow) returns (id: string)
      requires Valid()
      modifies this
      ensures Valid()
      ensures id !in old(rows) && rows == old(rows)[id := row]
    {
      id := NewId("account", nextSeq);
      rows := rows[id := row];
      forall n: nat | n >= nextSeq + 1
        ensures NewId("account", n) !in rows
      {
        if NewId("account", n) == id {
          NewIdInjective("account", n, nextSeq);
        }
      }
      nextSeq := nextSeq + 1;
    }
  }

  // ---------------------------------------------------------------------
  // sync_logs (append only)

  class SyncLogTable {
    var logs: seq<SyncLog>

    constructor ()
      ensures logs == []
    {
      logs := [];
    }

    method Append(entry: SyncLog)
      modifies this
      ensures logs == old(logs) + [entry]
    {
      logs := logs + [entry];
    }
  }

  // ---------------------------------------------------------------------
  // categorization_rules

  /** The rules after `on conflict (householdId, pattern) do update set categoryId`:
      the rule with that key changes its category, nothing else changes. */
  function Retargeted(rows: map<string, RuleRow>, householdId: string, pattern: string, categoryId: string): (r: map<string, RuleRow>)
    ensures r.Keys == rows.Keys
    ensures forall id :: id in rows && (rows[id].householdId != householdId || rows[id].pattern != pattern) ==> r[id] == rows[id]
    ensures forall id :: id in rows && rows[id].householdId == householdId && rows[id].pattern == pattern ==>
      r[id] == rows[id].(categoryId := categoryId)
  {
    map id | id in rows :: if rows[id].householdId == householdId && rows[id].pattern == pattern then rows[id].(categoryId := categoryId) else rows[id]
  }

  class RuleTable {
    var rows: map<string, RuleRow>
    var nextSeq: nat

    predicate HasPattern(householdId: string, pattern: string)
      reads this
    {
      exists id :: id in rows && rows[id].householdId == householdId && rows[id].pattern == pattern
    }

    /** The unique index `rule_pattern_idx` on (householdId, pattern). */
    ghost predicate Valid()
      reads this
    {
      (forall a, b ::
         (a in rows && b in rows && rows[a].householdId == rows[b].householdId
          && rows[a].pattern == rows[b].pattern) ==> a == b)
      && (forall n: nat :: n >= nextSeq ==> NewId("rule", n) !in rows)
    }

    constructor ()
      ensures Valid() && rows == map[]
    {
      rows := map[];
      nextSeq := 0;
    }

    /** `insert (householdId, pattern, categoryId, priority 0) on conflict
        (householdId, pattern) do update set categoryId`: an existing rule only
        changes its category and keeps its priority. */
    method Upsert(householdId: string, pattern: string, categoryId: string)
      requires Valid()
      modifies this
      ensures Valid()
      ensures HasPattern(householdId, pattern)
      ensures old(HasPattern(householdId, pattern)) ==> rows == Retargeted(old(rows), householdId, pattern, categoryId)
      ensures !old(HasPattern(householdId, pattern)) ==>
        exists id :: id !in old(rows) && rows == old(rows)[id := RuleRow(householdId, pattern, categoryId, 0)]
    {
      if exists id :: id in rows && rows[id].householdId == householdId && rows[id].pattern == pattern {
        var id :| id in rows && rows[id].householdId == householdId && rows[id].pattern == pattern;
        rows := rows[id := rows[id].(categoryId := categoryId)];
        assert rows[id].householdId == householdId && rows[id].pattern == pattern;
      } else {
        var id := NewId("rule", nextSeq);
        rows := rows[id := RuleRow(householdId, pattern, categoryId, 0)];
        forall n: nat | n >= nextSeq + 1
          ensures NewId("rule", n) !in rows
        {
          if NewId("rule", n) == id {
            NewIdInjective("rule", n, nextSeq);
          }
        }
        nextSeq := nextSeq + 1;
        assert rows[id].householdId == householdId && rows[id].pattern == pattern;
      }
    }
  }

  // ---------------------------------------------------------------------
  // categories

  class CategoryTable {
    var rows: map<string, CategoryRow>
    var nextSeq: nat

    ghost predicate Valid()
      reads this
    {
      forall n: nat :: n >= nextSeq ==> NewId("category", n) !in rows
    }

    constructor ()
      ensures Valid() && rows == map[]
    {
      rows := map[];
      nextSeq := 0;
    }

    method Insert(row: CategoryRow) returns (id: string)
      requires Valid()
      modifies this
      ensures Valid()
      ensures id !in old(rows) && rows == old(rows)[id := row]
      ensures "category" <= id
    {
      id := NewId("category", nextSeq);
      rows := rows[id := row];
      forall n: nat | n >= nextSeq + 1
        ensures NewId("category", n) !in rows
      {
        if NewId("category", n) == id {
          NewIdInjective("category", n, nextSeq);
        }
      }
      nextSeq := nextSeq + 1;
    }
  }

  // ---------------------------------------------------------------------
  // recurring_patterns

  /** The columns an upsert into `recurring_patterns` sets. */
  datatype PatternValues = PatternValues(
    expectedAmount: real,
    frequency: Frequency,
    categoryId: Option<string>,
    accountId: Option<string>,
    lastOccurrence: int,
    nextExpectedDate: int,
    confidence: real)

  /** An existing pattern after `on conflict do update set ...`: every listed
      column is replaced and `isActive` is kept. */
  function Refreshed(row: PatternRow, v: PatternValues): (r: PatternRow)
    ensures r.householdId == row.householdId && r.description == row.description
    ensures r.isActive == row.isActive
    ensures r.categoryId == v.categoryId && r.accountId == v.accountId
    ensures r.lastOccurrence == Some(v.lastOccurrence) && r.nextExpectedDate == Some(v.nextExpectedDate)
    ensures r.expectedAmount == v.expectedAmount && r.frequency == v.frequency && r.confidence == v.confidence
  {
    row.(expectedAmount := v.expectedAmount, frequency := v.frequency, categoryId := v.categoryId,
         accountId := v.accountId, lastOccurrence := Some(v.lastOccurrence),
         nextExpectedDate := Some(v.nextExpectedDate), confidence := v.confidence)
  }

  /** The upsert values a written pattern carries. */
  function ValuesOf(row: PatternRow): (v: PatternValues)
    requires row.lastOccurrence.Some? && row.nextExpectedDate.Some?
    ensures Refreshed(row, v) == row
  {
    PatternValues(row.expectedAmount, row.frequency, row.categoryId, row.accountId,
      row.lastOccurrence.value, row.nextExpectedDate.value, row.confidence)
  }

  /** A refreshed pattern carries exactly the values it was refreshed with. */
  lemma ValuesOfRefreshed(row: PatternRow, v: PatternValues)
    ensures ValuesOf(Refreshed(row, v)) == v
  {
  }

  /** A new pattern: `isActive` takes its default, true. */
  function FreshPattern(householdId: string, description: string, v: PatternValues): (r: PatternRow)
    ensures r.householdId == householdId && r.description == description && r.isActive
    ensures r == Refreshed(r, v)
  {
    PatternRow(householdId, description, v.expectedAmount, v.frequency, v.categoryId, v.accountId,
      Some(v.lastOccurrence), Some(v.nextExpectedDate), true, v.confidence)
  }

  /** Some pattern of `householdId` is listed under `description`. */
  predicate PatternListed(rows: map<string, PatternRow>, householdId: string, description: string) {
    exists id :: id in rows && rows[id].householdId == householdId && rows[id].description == description
  }

  /** A pattern stays listed as long as no row is removed and no row's
      household or description changes. */
  lemma PatternListedKept(before: map<string, PatternRow>, after: map<string, PatternRow>, householdId: string, description: string)
    requires PatternListed(before, householdId, description)
    requires forall id :: id in before ==>
      id in after && after[id].householdId == before[id].householdId && after[id].description == before[id].description
    ensures PatternListed(after, householdId, description)
  {
    var id :| id in before && before[id].householdId == householdId && before[id].description == description;
    assert after[id].householdId == householdId && after[id].description == description;
  }

  /** Rows changed over two steps satisfy `p` when the rows changed in each
      step do. */
  lemma ChangesCompose(orig: map<string, PatternRow>, before: map<string, PatternRow>, after: map<string, PatternRow>,
                       p: PatternRow -> bool)
    requires forall id :: id in before && (id !in orig || before[id] != orig[id]) ==> p(before[id])
    requires forall id :: id in after && (id !in before || after[id] != before[id]) ==> p(after[id])
    ensures forall id :: id in after && (id !in orig || after[id] != orig[id]) ==> p(after[id])
  {
    forall id | id in after && (id !in orig || after[id] != orig[id])
      ensures p(after[id])
    {
      if id in before && after[id] == before[id] {
        assert p(before[id]);
      }
    }
  }

  /** The patterns after `on conflict (householdId, description) do update set ...`. */
  function RefreshedAll(rows: map<string, PatternRow>, householdId: string, description: string, v: PatternValues): (r: map<string, PatternRow>)
    ensures r.Keys == rows.Keys
    ensures forall id :: id in rows && (rows[id].householdId != householdId || rows[id].description != description) ==> r[id] == rows[id]
    ensures forall id :: id in rows && rows[id].householdId == householdId && rows[id].description == description ==>
      r[id] == Refreshed(rows[id], v)
  {
    map id | id in rows :: if rows[id].householdId == householdId && rows[id].description == description then Refreshed(rows[id], v) else rows[id]
  }

  class PatternTable {
    var rows: map<string, PatternRow>
    var nextSeq: nat

    predicate HasDescription(householdId: string, description: string)
      reads this
    {
      PatternListed(rows, householdId, description)
    }

    /** The unique index `recurring_household_desc_idx` on (householdId, description). */
    ghost predicate Valid()
      reads this
    {
      (forall a, b ::
         (a in rows && b in rows && rows[a].householdId == rows[b].householdId
          && rows[a].description == rows[b].description) ==> a == b)
      && (forall n: nat :: n >= nextSeq ==> NewId("pattern", n) !in rows)
    }

    constructor ()
      ensures Valid() && rows == map[]
    {
      rows := map[];
      nextSeq := 0;
    }

    /** `insert ... on conflict (householdId, description) do update set ...`. */
    method Upsert(householdId: string, description: string, v: PatternValues)
      requires Valid()
      modifies this
      ensures Valid()
      ensures HasDescription(householdId, description)
      ensures old(HasDescription(householdId, description)) ==> rows == RefreshedAll(old(rows), householdId, description, v)
      ensures !old(HasDescription(householdId, description)) ==>
        exists id :: id !in old(rows) && rows == old(rows)[id := FreshPattern(householdId, description, v)]
      ensures forall id :: id in old(rows) ==>
        id in rows && rows[id].householdId == old(rows)[id].householdId && rows[id].description == old(rows)[id].description
    {
      if exists id :: id in rows && rows[id].householdId == householdId && rows[id].description == description {
        var id :| id in rows && rows[id].householdId == householdId && rows[id].description == description;
        rows := rows[id := Refreshed(rows[id], v)];
        assert rows[id].householdId == householdId && rows[id].description == description;
      } else {
        var id := NewId("pattern", nextSeq);
        rows := rows[id := FreshPattern(householdId, description, v)];
        forall n: nat | n >= nextSeq + 1
          ensures NewId("pattern", n) !in rows
        {
          if NewId("pattern", n) == id {
            NewIdInjective("pattern", n, nextSeq);
          }
        }
        nextSeq := nextSeq + 1;
        assert rows[id].householdId == householdId && rows[id].description == description;
      }
    }
  }

  // ---------------------------------------------------------------------
  // challenges

  class ChallengeTable {
    var rows: map<string, ChallengeRow>
    var nextSeq: nat

    ghost predicate Valid()
      reads this
    {
      forall n: nat :: n >= nextSeq ==> NewId("challenge", n) !in rows
    }

    constructor ()
      ensures Valid() && rows == map[]
    {
      rows := map[];
      nextSeq := 0;
    }

    method Insert(row: ChallengeRow) returns (id: string)
      requires Valid()
      modifies this
      ensures Valid()
      ensures id !in old(rows) && rows == old(rows)[id := row]
    {
      id := NewId("challenge", nextSeq);
      rows := rows[id := row];
      forall n: nat | n >= nextSeq + 1
        ensures NewId("challenge", n) !in rows
      {
        if NewId("challenge", n) == id {
          NewIdInjective("challenge", n, nextSeq);
        }
      }
      nextSeq := nextSeq + 1;
    }

    /** `delete from challenges where id = ...`. */
    method Delete(id: string)
      requires Valid()
      modifies this
      ensures Valid() && nextSeq == old(nextSeq)
      ensures rows == old(rows) - {id}
    {
      rows := rows - {id};
    }
  }

  // ---------------------------------------------------------------------
  // webauthn_credentials

  class CredentialTable {
    var rows: map<string, CredentialRow>

    /** Every stored public key is base64 text. */
    ghost predicate Valid()
      reads this
    {
      forall id :: id in rows ==> Base64.Decode(rows[id].publicKey).Some?
    }

    constructor ()
      ensures Valid() && rows == map[]
    {
      rows := map[];
    }

    /** `insert` with an id chosen by the caller: a primary-key clash throws. */
    method Insert(id: string, row: CredentialRow) returns (ok: bool)
      requires Valid() && Base64.Decode(row.publicKey).Some?
      modifies this
      ensures Valid()
      ensures ok <==> id !in old(rows)
      ensures rows == if ok then old(rows)[id := row] else old(rows)
    {
      ok := id !in rows;
      if ok {
        rows := rows[id := row];
      }
    }

    /** `update webauthn_credentials set counter where id = ...`. */
    method SetCounter(id: string, counter: int)
      requires Valid()
      modifies this
      ensures Valid()
      ensures rows == if id in old(rows) then old(rows)[id := old(rows)[id].(counter := counter)] else old(rows)
    {
      if id in rows {
        rows := rows[id := rows[id].(counter := counter)];
      }
    }
  }

  // ---------------------------------------------------------------------
  // households and users

  class HouseholdTable {
    /** Rows in insertion order; `select ... limit 1` returns the first. */
    var ids: seq<string>
    var rows: map<string, HouseholdRow>
    var nextSeq: nat

    ghost predicate Valid()
      reads this
    {
      (forall i :: 0 <= i < |ids| ==> ids[i] in rows)
      && (forall k :: k in rows ==> k in ids)
      && (forall n: nat :: n >= nextSeq ==> NewId("household", n) !in rows)
    }

    constructor ()
      ensures Valid() && rows == map[] && ids == []
    {
      ids, rows := [], map[];
      nextSeq := 0;
    }

    method Insert(row: HouseholdRow) returns (id: string)
      requires Valid()
      modifies this
      ensures Valid()
      ensures id !in old(rows) && rows == old(rows)[id := row] && ids == old(ids) + [id]
    {
      id := NewId("household", nextSeq);
      ids := ids + [id];
      rows := rows[id := row];
      forall n: nat | n >= nextSeq + 1
        ensures NewId("household", n) !in rows
      {
        if NewId("household", n) == id {
          NewIdInjective("household", n, nextSeq);
        }
      }
      nextSeq := nextSeq + 1;
    }
  }

  /** Number of users in household `h`. */
  function MemberCount(users: map<string, UserRow>, h: string): nat {
    |set id | id in users && users[id].householdId == h|
  }

  /** At most two people share a household. */
  const HouseholdCapacity: nat := 2

  /** `select from households limit 1`: the first household stored. */
  function FirstHousehold(ids: seq<string>): Option<string> {
    if |ids| > 0 then Some(ids[0]) else None
  }

  /** The household already has as many members as it may. */
  predicate Full(users: map<string, UserRow>, h: string) {
    MemberCount(users, h) >= HouseholdCapacity
  }

  class UserTable {
    var rows: map<string, UserRow>
    var nextSeq: nat

    ghost predicate Valid()
      reads this
    {
      forall n: nat :: n >= nextSeq ==> NewId("user", n) !in rows
    }

    constructor ()
      ensures Valid() && rows == map[]
    {
      rows := map[];
      nextSeq := 0;
    }

    method Insert(row: UserRow) returns (id: string)
      requires Valid()
      modifies this
      ensures Valid()
      ensures id !in old(rows) && rows == old(rows)[id := row]
    {
      id := NewId("user", nextSeq);
      rows := rows[id := row];
      forall n: nat | n >= nextSeq + 1
        ensures NewId("user", n) !in rows
      {
        if NewId("user", n) == id {
          NewIdInjective("user", n, nextSeq);
        }
      }
      nextSeq := nextSeq + 1;
    }
  }
}
