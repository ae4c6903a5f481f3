/** `POST /api/webhook/transactions`: the external scraper's entry point. A
    chain of checks (key, body, account) answers 401, 400, 404 or 500 before
    anything is written; past it, the batch goes through the same
    insert-or-ignore loop as the in-app scraper, the account is stamped with
    the scrape's own date, one success log is appended and the counts are
    returned. An exception past the checks appends an error log and answers
    500. The transactions inserted are handed to classification after the
    response; that hand-off is the `job` output. */
module WebhookRoute {
  import opened Common
  import opened Db
  import opened ScraperTransform
  import opened Classify
  import opened Ingest
  import opened WebhookAuth

  /** The JSON body as far as the route looks at it: a field that is
      missing, or `transactions` that is not an array, is None. */
  datatype WebhookBody = WebhookBody(
    accountId: Option<string>,
    scrapeDate: Option<string>,
    transactions: Option<seq<TransformedTransaction>>)

  /** The request: the `Authorization` header and `request.json()`, which
      fails with the parser's message when the body is not a JSON object. */
  datatype WebhookRequest = WebhookRequest(authorization: Option<string>, body: Result<WebhookBody>)

  datatype ResponseBody = ErrorBody(error: string) | Counts(added: nat, duplicates: nat)
  datatype Response = Response(status: nat, body: ResponseBody)

  /** What the route hands to classification once it has answered. */
  datatype ClassifyJob = ClassifyJob(householdId: string, newlyInserted: seq<NewTransaction>)

  /** The outcome of the checks: an answer, or the batch to ingest. */
  datatype Gate =
    | Answer(response: Response)
    | Proceed(accountId: string, householdId: string, scrapeDate: Option<string>, txns: seq<TransformedTransaction>)

  const UnauthorizedMessage: string := "Unauthorized"
  const RequiredMessage: string := "accountId and transactions array are required"
  const NotFoundMessage: string := "Account not found"
  const InactiveMessage: string := "Account is inactive"
  /** The message of the `RangeError` an Invalid Date raises when it is written. */
  const InvalidTimeValue: string := "Invalid time value"

  /** The checks in their order: the key first (a thrown key check answers
      500), then the body (one that does not parse answers 500), then the
      required fields, then the account, which must exist and be active. */
  function Check(auth: Result<bool>, body: Result<WebhookBody>, accounts: map<string, AccountRow>): (g: Gate)
    ensures auth.Err? ==> g == Answer(Response(500, ErrorBody(auth.message)))
    ensures auth == Ok(false) ==> g == Answer(Response(401, ErrorBody(UnauthorizedMessage)))
    ensures auth == Ok(true) && body.Err? ==> g == Answer(Response(500, ErrorBody(body.message)))
    ensures auth == Ok(true) && body.Ok? && (!IsSet(body.value.accountId) || body.value.transactions.None?) ==>
      g == Answer(Response(400, ErrorBody(RequiredMessage)))
    ensures g.Proceed? <==>
      && auth == Ok(true) && body.Ok? && IsSet(body.value.accountId) && body.value.transactions.Some?
      && body.value.accountId.value in accounts && accounts[body.value.accountId.value].isActive
    ensures g.Proceed? ==>
      && g.accountId == body.value.accountId.value && g.householdId == accounts[g.accountId].householdId
      && g.scrapeDate == body.value.scrapeDate && g.txns == body.value.transactions.value
    ensures g.Answer? && auth == Ok(true) && body.Ok? && IsSet(body.value.accountId) && body.value.transactions.Some? ==>
      g.response == if body.value.accountId.value !in accounts then Response(404, ErrorBody(NotFoundMessage))
                    else Response(400, ErrorBody(InactiveMessage))
  {
    match auth
    case Err(message) => Answer(Response(500, ErrorBody(message)))
    case Ok(valid) =>
      if !valid then Answer(Response(401, ErrorBody(UnauthorizedMessage)))
      else
        match body
        case Err(message) => Answer(Response(500, ErrorBody(message)))
        case Ok(b) =>
          if !IsSet(b.accountId) || b.transactions.None? then Answer(Response(400, ErrorBody(RequiredMessage)))
          else if b.accountId.value !in accounts then Answer(Response(404, ErrorBody(NotFoundMessage)))
          else if !accounts[b.accountId.value].isActive then Answer(Response(400, ErrorBody(InactiveMessage)))
          else Proceed(b.accountId.value, accounts[b.accountId.value].householdId, b.scrapeDate, b.transactions.value)
  }

  /** A request with a bad key is answered 401 whatever its body: the body is
      not read before the key is checked. */
  lemma UnauthorizedIgnoresBody(body: Result<WebhookBody>, other: Result<WebhookBody>, accounts: map<string, AccountRow>)
    ensures Check(Ok(false), body, accounts) == Check(Ok(false), other, accounts)
    ensures Check(Ok(false), body, accounts).Answer? && Check(Ok(false), body, accounts).response.status == 401
  {
  }

  /** Only a success goes on to write: every answer the checks give is an error. */
  lemma AnswersAreErrors(auth: Result<bool>, body: Result<WebhookBody>, accounts: map<string, AccountRow>)
    requires Check(auth, body, accounts).Answer?
    ensures Check(auth, body, accounts).response.status in {400, 401, 404, 500}
    ensures Check(auth, body, accounts).response.body.ErrorBody?
  {
  }

  /** The handler. `expectedKey` is `WEBHOOK_API_KEY`; `startedAt` and
      `completedAt` are the two clock readings; `env` parses dates and
      encrypts payloads. Past the checks the batch is always ingested; the
      account update then throws when the scrape date is missing or does not
      parse, and the catch appends an error log and answers 500 (the rows
      inserted stay). */
  method Post(request: WebhookRequest, expectedKey: Option<string>, env: Env, startedAt: int, completedAt: int,
              accounts: AccountTable, transactions: TransactionTable, syncLogs: SyncLogTable)
    returns (response: Response, job: Option<ClassifyJob>)
    requires accounts.Valid() && transactions.Valid()
    modifies accounts, transactions, syncLogs
    ensures accounts.Valid() && transactions.Valid()
    ensures var gate := Check(ValidateWebhookKey(request.authorization, expectedKey), request.body, old(accounts.rows));
      if gate.Answer? then
        && response == gate.response && job.None?
        && accounts.rows == old(accounts.rows) && transactions.rows == old(transactions.rows)
        && syncLogs.logs == old(syncLogs.logs)
      else
        var plan := Inserts(ExternalIds(old(transactions.rows), gate.accountId), gate.householdId, gate.accountId, gate.txns, env);
        var synced := if gate.scrapeDate.Some? then env.parseDate(gate.scrapeDate.value) else None;
        && (exists newly :: Extends(old(transactions.rows), transactions.rows, newly, plan))
        && (synced.None? ==>
              && response == Response(500, ErrorBody(InvalidTimeValue)) && job.None?
              && accounts.rows == old(accounts.rows)
              && syncLogs.logs == old(syncLogs.logs)
                   + [SyncLog(gate.accountId, Failure, 0, 0, Some(InvalidTimeValue), startedAt, Some(completedAt))])
        && (synced.Some? ==>
              && response == Response(200, Counts(|plan|, |gate.txns| - |plan|))
              && accounts.rows == old(accounts.rows)[gate.accountId := old(accounts.rows)[gate.accountId].(lastSyncedAt := synced)]
              && syncLogs.logs == old(syncLogs.logs)
                   + [SyncLog(gate.accountId, Success, |plan|, |gate.txns| - |plan|, None, startedAt, Some(completedAt))]
              && (job.Some? <==> |plan| > 0)
              && (job.Some? ==> job.value.householdId == gate.householdId)
              && (job.Some? ==> Extends(old(transactions.rows), transactions.rows, job.value.newlyInserted, plan)))
  {
    var auth := ValidateWebhookKey(request.authorization, expectedKey);
    var gate := Check(auth, request.body, accounts.rows);
    if gate.Answer? {
      return gate.response, None;
    }
    var result := InsertBatch(gate.householdId, gate.accountId, gate.txns, env, transactions);
    var synced := if gate.scrapeDate.Some? then env.parseDate(gate.scrapeDate.value) else None;
    if synced.None? {
      // `new Date(body.scrapeDate)` is an Invalid Date: the update throws
      syncLogs.Append(SyncLog(gate.accountId, Failure, 0, 0, Some(InvalidTimeValue), startedAt, Some(completedAt)));
      return Response(500, ErrorBody(InvalidTimeValue)), None;
    }
    accounts.SetLastSyncedAt(gate.accountId, synced.value);
    syncLogs.Append(SyncLog(gate.accountId, Success, result.added, result.duplicates, None, startedAt, Some(completedAt)));
    job := if |result.newlyInserted| > 0 then Some(ClassifyJob(gate.householdId, result.newlyInserted)) else None;
    response := Response(200, Counts(result.added, result.duplicates));
  }
}
