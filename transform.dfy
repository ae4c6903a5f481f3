/** The scraper-side transformation of raw scraped transactions into the rows
    the ingestion expects: a stable external id, the charge split into a
    magnitude and a direction, and the optional fields copied when truthy.
    SHA-256 is a parameter (`sha` maps a text to its hexadecimal digest). */
module ScraperTransform {
  import opened Common
  import opened Db

  /** The scraper's identifier: a string, a number, the number `NaN` (what
      `parseInt` gives for a text without digits), or missing. */
  datatype Identifier = IdString(text: string) | IdNumber(number: int) | IdNotANumber | NoIdentifier

  /** A scraped transaction; amounts in agorot. */
  datatype RawTransaction = RawTransaction(
    identifier: Identifier,
    date: string,
    processedDate: Option<string>,
    description: string,
    originalAmount: int,
    originalCurrency: string,
    chargedAmount: int,
    chargedCurrency: string,
    memo: Option<string>)

  /** A transaction ready for ingestion; `amount` in agorot. */
  datatype TransformedTransaction = TransformedTransaction(
    externalId: string,
    date: string,
    processedDate: Option<string>,
    description: string,
    originalDescription: Option<string>,
    amount: nat,
    currency: Option<string>,
    txType: TxType,
    memo: Option<string>)

  /** `String(x)` for the number `agorot / 100`: the integer part, then the
      fraction without trailing zeros, if any. */
  function AmountText(agorot: int): (r: string)
    ensures |r| > 0 && (agorot < 0 <==> r[0] == '-')
  {
    var m := if agorot < 0 then -agorot else agorot;
    var whole := NatToString(m / 100);
    var cents := m % 100;
    var fraction :=
      if cents == 0 then ""
      else if cents % 10 == 0 then "." + [DigitChar(cents / 10)]
      else "." + [DigitChar(cents / 10), DigitChar(cents % 10)];
    (if agorot < 0 then "-" else "") + whole + fraction
  }

  /** The text hashed when the scraper gives no identifier. */
  function HashKey(tx: RawTransaction): string {
    tx.date + "|" + AmountText(tx.chargedAmount) + "|" + tx.description
  }

  /** `makeExternalId`: the identifier as text, or the first 32 hexadecimal
      digits of the SHA-256 of date, charge and description. */
  function MakeExternalId(tx: RawTransaction, sha: string -> string): (r: string)
    ensures tx.identifier.IdString? ==> r == tx.identifier.text
    ensures tx.identifier.IdNumber? && tx.identifier.number >= 0 ==>
      AllDigits(r) && DigitsValue(r) == tx.identifier.number
    ensures tx.identifier.IdNotANumber? ==> r == "NaN"
    ensures tx.identifier.NoIdentifier? ==> r <= sha(HashKey(tx)) && |r| == Min(32, |sha(HashKey(tx))|)
  {
    match tx.identifier
    case IdString(text) => text
    case IdNumber(n) =>
      if n >= 0 then (DigitsValueOfNatToString(n); IntToString(n)) else IntToString(n)
    case IdNotANumber => "NaN"
    case NoIdentifier =>
      var digest := sha(HashKey(tx));
      digest[..Min(32, |digest|)]
  }

  /** The external id only depends on the identifier, the date, the charge
      and the description: two scrapes of the same transaction that differ in
      any other field get the same id. */
  lemma ExternalIdStable(a: RawTransaction, b: RawTransaction, sha: string -> string)
    requires a.identifier == b.identifier && a.date == b.date
    requires a.chargedAmount == b.chargedAmount && a.description == b.description
    ensures MakeExternalId(a, sha) == MakeExternalId(b, sha)
  {
    assert HashKey(a) == HashKey(b);
  }

  /** The transformation of one transaction. */
  function Transform(tx: RawTransaction, sha: string -> string): (r: TransformedTransaction)
    ensures r.externalId == MakeExternalId(tx, sha)
    ensures r.date == tx.date && r.description == tx.description && r.originalDescription.None?
    ensures r.txType != Transfer && (r.txType == Income <==> tx.chargedAmount >= 0)
    ensures (if r.txType == Income then r.amount as int else -(r.amount as int)) == tx.chargedAmount
    ensures r.processedDate.Some? <==> IsSet(tx.processedDate)
    ensures r.processedDate.Some? ==> r.processedDate == tx.processedDate
    ensures r.currency.Some? <==> tx.originalCurrency != "" && tx.originalCurrency != "ILS"
    ensures r.currency.Some? ==> r.currency.value == tx.originalCurrency
    ensures r.memo.Some? <==> IsSet(tx.memo)
    ensures r.memo.Some? ==> r.memo == tx.memo
  {
    TransformedTransaction(
      MakeExternalId(tx, sha),
      tx.date,
      if IsSet(tx.processedDate) then tx.processedDate else None,
      tx.description,
      None,
      if tx.chargedAmount < 0 then -tx.chargedAmount else tx.chargedAmount,
      if tx.originalCurrency != "" && tx.originalCurrency != "ILS" then Some(tx.originalCurrency) else None,
      if tx.chargedAmount >= 0 then Income else Expense,
      if IsSet(tx.memo) then tx.memo else None)
  }

  /** `transformTransactions`: one output per input, in the same order. */
  function TransformTransactions(txs: seq<RawTransaction>, sha: string -> string): (r: seq<TransformedTransaction>)
    ensures |r| == |txs|
    ensures forall i :: 0 <= i < |txs| ==> r[i] == Transform(txs[i], sha)
  {
    seq(|txs|, i requires 0 <= i < |txs| => Transform(txs[i], sha))
  }
}
