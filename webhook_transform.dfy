/** The standalone scraper's copy of the transformation, which builds the
    webhook payload instead of the ingestion row. Its external-id rule is the
    same text as the application's, so it is taken from there; the payload is
    built on its own, and a lemma shows that both copies agree field by field. */
module WebhookTransform {
  import opened Common
  import opened Db
  import opened ScraperTransform

  /** One element of the webhook payload's `transactions`; `amount` in agorot. */
  datatype WebhookTransaction = WebhookTransaction(
    externalId: string,
    date: string,
    processedDate: Option<string>,
    description: string,
    originalDescription: Option<string>,
    amount: nat,
    currency: Option<string>,
    isIncome: bool,
    memo: Option<string>)

  /** The payload for one scraped transaction. */
  function ToWebhook(tx: RawTransaction, sha: string -> string): (r: WebhookTransaction)
    ensures r.externalId == MakeExternalId(tx, sha)
    ensures r.date == tx.date && r.description == tx.description && r.originalDescription.None?
    ensures r.isIncome <==> tx.chargedAmount >= 0
    ensures (if r.isIncome then r.amount as int else -(r.amount as int)) == tx.chargedAmount
    ensures r.processedDate.Some? <==> IsSet(tx.processedDate)
    ensures r.processedDate.Some? ==> r.processedDate == tx.processedDate
    ensures r.currency.Some? <==> tx.originalCurrency != "" && tx.originalCurrency != "ILS"
    ensures r.currency.Some? ==> r.currency.value == tx.originalCurrency
    ensures r.memo.Some? <==> IsSet(tx.memo)
    ensures r.memo.Some? ==> r.memo == tx.memo
  {
    var magnitude := if tx.chargedAmount < 0 then -tx.chargedAmount else tx.chargedAmount;
    var base := WebhookTransaction(MakeExternalId(tx, sha), tx.date, None, tx.description, None, magnitude,
                                   None, tx.chargedAmount >= 0, None);
    var withProcessed := if IsSet(tx.processedDate) then base.(processedDate := tx.processedDate) else base;
    var withCurrency := if tx.originalCurrency != "" && tx.originalCurrency != "ILS"
                        then withProcessed.(currency := Some(tx.originalCurrency)) else withProcessed;
    if IsSet(tx.memo) then withCurrency.(memo := tx.memo) else withCurrency
  }

  /** `transformTransactions` of the standalone scraper: one payload element
      per scraped transaction, in order. */
  function ToWebhookAll(txs: seq<RawTransaction>, sha: string -> string): (r: seq<WebhookTransaction>)
    ensures |r| == |txs|
    ensures forall i :: 0 <= i < |txs| ==> r[i] == ToWebhook(txs[i], sha)
  {
    seq(|txs|, i requires 0 <= i < |txs| => ToWebhook(txs[i], sha))
  }

  /** The row the application would build from the same payload element. */
  function AsTransformed(w: WebhookTransaction): TransformedTransaction {
    TransformedTransaction(w.externalId, w.date, w.processedDate, w.description, w.originalDescription, w.amount,
      w.currency, if w.isIncome then Income else Expense, w.memo)
  }

  /** The two copies agree: the standalone scraper's payload, read as a row,
      is exactly what the application's transformation produces. */
  lemma {:induction false} CopiesAgree(txs: seq<RawTransaction>, sha: string -> string)
    ensures |ToWebhookAll(txs, sha)| == |TransformTransactions(txs, sha)|
    ensures forall i :: 0 <= i < |txs| ==> AsTransformed(ToWebhookAll(txs, sha)[i]) == TransformTransactions(txs, sha)[i]
  {
    forall i | 0 <= i < |txs|
      ensures AsTransformed(ToWebhookAll(txs, sha)[i]) == TransformTransactions(txs, sha)[i]
    {
      var w, t := ToWebhook(txs[i], sha), Transform(txs[i], sha);
      assert AsTransformed(w).txType == t.txType;
    }
  }
}
