/** Isracard card statements turned into scraped transactions: the statement's
    dd/mm/yyyy dates, the choice between the domestic and the abroad fields of
    a statement row, the months a scrape asks for and the start-date filter.
    Logging in and fetching are not modelled: the statement the service
    returns for a (month, year) request is the parameter `fetch`. */
module Isracard {
  import opened Common
  import opened Calendar
  import opened Db
  import opened ScraperTransform

  // ---------------------------------------------------------------------
  // Statement dates

  /** The text is exactly two digits, '/', two digits, '/', four digits. */
  predicate IsStatementDate(s: string) {
    |s| == 10 && s[2] == '/' && s[5] == '/'
    && AllDigits(s[..2]) && AllDigits(s[3..5]) && AllDigits(s[6..])
  }

  function DayField(s: string): nat
    requires IsStatementDate(s)
  {
    DigitsValue(s[..2])
  }

  function MonthField(s: string): nat
    requires IsStatementDate(s)
  {
    DigitsValue(s[3..5])
  }

  function YearField(s: string): nat
    requires IsStatementDate(s)
  {
    DigitsValue(s[6..])
  }

  /** Two decimal digits for a number below 100. */
  function TwoDigits(n: nat): (r: string)
    requires n < 100
    ensures |r| == 2 && AllDigits(r) && DigitsValue(r) == n
  {
    var r := [DigitChar(n / 10), DigitChar(n % 10)];
    assert r[..1] == [DigitChar(n / 10)] && r[..1][..0] == [];
    assert DigitsValue(r[..1]) == n / 10;
    r
  }

  /** The message of the `RangeError` that `toISOString` throws on an invalid date. */
  const InvalidTimeValue: string := "Invalid time value"

  /** What `toISOString` prints for midnight UTC of a day. */
  function IsoMidnight(year: string, month: string, day: string): string {
    year + "-" + month + "-" + day + "T00:00:00.000Z"
  }

  /** `parseIsracardDate`: a text that is not dd/mm/yyyy comes back unchanged;
      otherwise it is read as midnight UTC of that day and printed in ISO 8601.
      The date parser of Node.js takes any month 1..12 and any day 1..31 and
      carries a day past the end of the month into the next month (December
      has 31 days, so the year never changes); any other month or day gives
      an invalid date, on which `toISOString` throws. */
  function ParseIsracardDate(s: string): (r: Result<string>)
    ensures !IsStatementDate(s) ==> r == Ok(s)
    ensures IsStatementDate(s) ==> (r.Err? <==> !(1 <= MonthField(s) <= 12 && 1 <= DayField(s) <= 31))
    ensures r.Err? ==> r.message == InvalidTimeValue
    ensures IsStatementDate(s) && IsValidDate(YearField(s), MonthField(s), DayField(s)) ==>
      r == Ok(IsoMidnight(s[6..], s[3..5], s[..2]))
  {
    if !IsStatementDate(s) then Ok(s)
    else
      var y, m, d := YearField(s), MonthField(s), DayField(s);
      if !(1 <= m <= 12 && 1 <= d <= 31) then Err(InvalidTimeValue)
      else if d <= DaysInMonth(y, m - 1) then Ok(IsoMidnight(s[6..], s[3..5], s[..2]))
      else Ok(IsoMidnight(s[6..], TwoDigits(m + 1), TwoDigits(d - DaysInMonth(y, m - 1))))
  }

  /** An ISO 8601 text for midnight UTC of a real calendar day. */
  predicate IsIsoMidnight(t: string) {
    |t| == 24 && AllDigits(t[..4]) && t[4] == '-' && AllDigits(t[5..7]) && t[7] == '-'
    && AllDigits(t[8..10]) && t[10..] == "T00:00:00.000Z"
    && IsValidDate(DigitsValue(t[..4]), DigitsValue(t[5..7]), DigitsValue(t[8..10]))
  }

  /** The day an ISO midnight text names, as a day number. */
  function IsoDay(t: string): int
    requires IsIsoMidnight(t)
  {
    MakeDay(DigitsValue(t[..4]), DigitsValue(t[5..7]) - 1, DigitsValue(t[8..10]))
  }

  /** The pieces of an ISO midnight text sit at fixed positions. */
  lemma IsoMidnightParts(year: string, month: string, day: string)
    requires |year| == 4 && |month| == 2 && |day| == 2
    ensures var t := IsoMidnight(year, month, day);
      |t| == 24 && t[..4] == year && t[4] == '-' && t[5..7] == month && t[7] == '-'
      && t[8..10] == day && t[10..] == "T00:00:00.000Z"
  {
  }

  /** A day past the end of month `m` (1-based, not December) is the same
      day as the surplus day of the next month. */
  lemma CarryDay(y: int, m: int, d: int)
    requires 1 <= m <= 12 && DaysInMonth(y, m - 1) < d <= 31
    ensures m <= 11 && IsValidDate(y, m + 1, d - DaysInMonth(y, m - 1))
    ensures MakeDay(y, m, d - DaysInMonth(y, m - 1)) == MakeDay(y, m - 1, d)
  {
    NextMonthStart(y, m - 1);
    assert (m - 1) / 12 == 0 && (m - 1) % 12 == m - 1;
  }

  /** The ISO text a statement date becomes names the same day, carrying an
      overflowing day into the next month as the date parser does. */
  lemma ParsedDateIsSameDay(s: string)
    requires IsStatementDate(s) && ParseIsracardDate(s).Ok?
    ensures IsIsoMidnight(ParseIsracardDate(s).value)
    ensures IsoDay(ParseIsracardDate(s).value) == MakeDay(YearField(s), MonthField(s) - 1, DayField(s))
  {
    var y, m, d := YearField(s), MonthField(s), DayField(s);
    if d <= DaysInMonth(y, m - 1) {
      IsoMidnightParts(s[6..], s[3..5], s[..2]);
    } else {
      CarryDay(y, m, d);
      IsoMidnightParts(s[6..], TwoDigits(m + 1), TwoDigits(d - DaysInMonth(y, m - 1)));
    }
  }

  /** Parsing is idempotent: the result of a successful parse parses to itself. */
  lemma ParseIsracardDateIdempotent(s: string)
    requires ParseIsracardDate(s).Ok?
    ensures ParseIsracardDate(ParseIsracardDate(s).value) == ParseIsracardDate(s)
  {
    if IsStatementDate(s) {
      ParsedDateIsSameDay(s);
    }
  }

  /** Two statement dates that parse to the same text name the same day. */
  lemma ParseIsracardDateSameText(s1: string, s2: string)
    requires IsStatementDate(s1) && IsStatementDate(s2)
    requires ParseIsracardDate(s1).Ok? && ParseIsracardDate(s1) == ParseIsracardDate(s2)
    ensures MakeDay(YearField(s1), MonthField(s1) - 1, DayField(s1))
         == MakeDay(YearField(s2), MonthField(s2) - 1, DayField(s2))
  {
    ParsedDateIsSameDay(s1);
    ParsedDateIsSameDay(s2);
  }

  // ---------------------------------------------------------------------
  // parseInt

  /** Length of the run of decimal digits at the start of `s`. */
  function DigitRun(s: string): (n: nat)
    ensures n <= |s|
    ensures forall k :: 0 <= k < n ==> IsDigit(s[k])
    ensures n < |s| ==> !IsDigit(s[n])
  {
    if s == [] || !IsDigit(s[0]) then 0 else 1 + DigitRun(s[1..])
  }

  /** `parseInt(s, 10)`: after leading whitespace and an optional sign, the
      longest run of decimal digits; `NaN` when there is none. */
  function ParseInt10(s: string): (r: Identifier)
    ensures r.IdNumber? || r.IdNotANumber?
  {
    var t := s[LeadingSpace(s)..];
    var negative := t != [] && t[0] == '-';
    var u := if t != [] && (t[0] == '+' || t[0] == '-') then t[1..] else t;
    var n := DigitRun(u);
    if n == 0 then IdNotANumber
    else
      assert AllDigits(u[..n]);
      var v := DigitsValue(u[..n]);
      IdNumber(if negative then -(v as int) else v as int)
  }

  /** A text of digits reads as its decimal value; a text that starts with
      neither whitespace, a sign nor a digit (such as "undefined") reads as `NaN`. */
  lemma ParseInt10Digits(s: string)
    ensures s != [] && AllDigits(s) ==> ParseInt10(s) == IdNumber(DigitsValue(s))
    ensures s == [] || (!IsJsWhitespace(s[0]) && s[0] != '+' && s[0] != '-' && !IsDigit(s[0]))
      ==> ParseInt10(s) == IdNotANumber
  {
    if s != [] && AllDigits(s) {
      assert LeadingSpace(s) == 0;
      assert s[0..] == s;
      assert DigitRun(s) == |s|;
      assert s[..|s|] == s;
    }
    if s != [] && !IsJsWhitespace(s[0]) {
      assert LeadingSpace(s) == 0 && s[0..] == s;
    }
  }

  // ---------------------------------------------------------------------
  // Statement rows

  /** One row of a card statement, as the service sends it; amounts in agorot.
      The optional fields are the ones the service may leave out. */
  datatype IsracardTxn = IsracardTxn(
    dealSumType: Option<string>,
    voucherNumberRatz: Option<string>,
    voucherNumberRatzOutbound: Option<string>,
    dealSum: int,
    paymentSum: int,
    dealSumOutbound: Option<int>,
    paymentSumOutbound: Option<int>,
    fullPurchaseDate: string,
    fullPurchaseDateOutbound: Option<string>,
    fullPaymentDate: Option<string>,
    fullSupplierNameHeb: string,
    fullSupplierNameOutbound: Option<string>,
    currencyId: Option<string>,
    currentPaymentCurrency: Option<string>,
    moreInfo: Option<string>)

  /** The voucher number of a row that is no real transaction. */
  const NoVoucher: string := "000000000"

  /** A row is a purchase abroad when its abroad deal sum is truthy (present and not zero). */
  predicate IsOutbound(t: IsracardTxn) {
    t.dealSumOutbound.Some? && t.dealSumOutbound.value != 0
  }

  /** Rows the conversion drops: deal-sum type "1", or no voucher number at all. */
  predicate IsSkipped(t: IsracardTxn) {
    t.dealSumType == Some("1") || (t.voucherNumberRatz == Some(NoVoucher) && t.voucherNumberRatzOutbound == Some(NoVoucher))
  }

  /** The purchase date text of a row: the abroad one on a purchase abroad
      (None when the service leaves it out), the domestic one otherwise. */
  function PurchaseDate(t: IsracardTxn): Option<string> {
    if IsOutbound(t) then t.fullPurchaseDateOutbound else Some(t.fullPurchaseDate)
  }

  /** The voucher number as text; a missing one is printed as "undefined". */
  function Voucher(t: IsracardTxn): string {
    (if IsOutbound(t) then t.voucherNumberRatzOutbound else t.voucherNumberRatz).GetOr("undefined")
  }

  function Description(t: IsracardTxn): string {
    if IsOutbound(t) then t.fullSupplierNameOutbound.GetOr("") else t.fullSupplierNameHeb
  }

  function DealAmount(t: IsracardTxn): int {
    if IsOutbound(t) then t.dealSumOutbound.value else t.dealSum
  }

  /** The charge of a row: the abroad payment sum on a purchase abroad
      (None when the service leaves it out), the domestic one otherwise. */
  function Charge(t: IsracardTxn): Option<int> {
    if IsOutbound(t) then t.paymentSumOutbound else Some(t.paymentSum)
  }

  /** The statement's processing date for a row: its own payment date when
      it has one, otherwise the one the month's statement came with. */
  function ProcessedDateOf(t: IsracardTxn, processedDate: string): Result<string> {
    if IsSet(t.fullPaymentDate) then ParseIsracardDate(t.fullPaymentDate.value) else Ok(processedDate)
  }

  /** What `convertTransaction` gives for a row it does not skip: the
      transaction; or, for a purchase abroad without its purchase date, a
      transaction dated `undefined` (`parseIsracardDate` finds no dd/mm/yyyy
      in the text "undefined" and hands its argument back); or, for one with
      a date but without its payment sum, a transaction whose charged amount
      is `NaN` (the negation of `undefined`), of which `date` is kept. */
  datatype Conversion = Converted(raw: RawTransaction) | Undated | Unpriced(date: string)

  /** `convertTransaction`: no transaction for a skipped row; otherwise the
      abroad or the domestic fields, the amounts negated (a charge on the card
      is money spent), the currencies defaulted to ILS and the memo kept when
      truthy. An invalid payment or purchase date makes the conversion throw;
      a missing abroad date or payment sum does not. */
  function ConvertTransaction(t: IsracardTxn, processedDate: string): (r: Result<Option<Conversion>>)
    ensures r == Ok(None) <==> IsSkipped(t)
    ensures r.Err? <==>
      !IsSkipped(t) && (ProcessedDateOf(t, processedDate).Err?
                        || (PurchaseDate(t).Some? && ParseIsracardDate(PurchaseDate(t).value).Err?))
    ensures r.Err? ==> r.message == InvalidTimeValue
    ensures r.Ok? && r.value.Some? ==>
      && (r.value.value.Undated? <==> PurchaseDate(t).None?)
      && (r.value.value.Unpriced? <==> PurchaseDate(t).Some? && Charge(t).None?)
    ensures r.Ok? && r.value.Some? && r.value.value.Unpriced? ==>
      r.value.value.date == ParseIsracardDate(PurchaseDate(t).value).value
    ensures r.Ok? && r.value.Some? && r.value.value.Converted? ==>
      var raw := r.value.value.raw;
      && raw.date == ParseIsracardDate(PurchaseDate(t).value).value
      && raw.processedDate == Some(ProcessedDateOf(t, processedDate).value)
      && raw.chargedAmount == -Charge(t).value && raw.originalAmount == -DealAmount(t)
      && raw.identifier == ParseInt10(Voucher(t)) && raw.description == Description(t)
      && raw.chargedCurrency == t.currencyId.GetOr("ILS")
      && raw.originalCurrency == t.currentPaymentCurrency.GetOr(t.currencyId.GetOr("ILS"))
      && (raw.memo.Some? <==> IsSet(t.moreInfo)) && (raw.memo.Some? ==> raw.memo == t.moreInfo)
  {
    if IsSkipped(t) then Ok(None)
    else
      var processed := ProcessedDateOf(t, processedDate);
      if processed.Err? then Err(processed.message)
      else if PurchaseDate(t).None? then Ok(Some(Undated))
      else
        var date := ParseIsracardDate(PurchaseDate(t).value);
        if date.Err? then Err(date.message)
        else if Charge(t).None? then Ok(Some(Unpriced(date.value)))
        else
          Ok(Some(Converted(RawTransaction(
            ParseInt10(Voucher(t)),
            date.value,
            Some(processed.value),
            Description(t),
            -DealAmount(t),
            t.currentPaymentCurrency.GetOr(t.currencyId.GetOr("ILS")),
            -Charge(t).value,
            t.currencyId.GetOr("ILS"),
            if IsSet(t.moreInfo) then t.moreInfo else None))))
  }

  /** Through the scraper's transformation, a charge on the card becomes an
      expense of the same size and a refund becomes income. */
  lemma ConvertedChargeIsExpense(t: IsracardTxn, processedDate: string, sha: string -> string)
    requires ConvertTransaction(t, processedDate).Ok? && ConvertTransaction(t, processedDate).value.Some?
    requires ConvertTransaction(t, processedDate).value.value.Converted?
    ensures Charge(t).Some?
    ensures var row := Transform(ConvertTransaction(t, processedDate).value.value.raw, sha);
      (row.txType == Expense <==> Charge(t).value > 0)
      && row.amount as int == (if Charge(t).value < 0 then -Charge(t).value else Charge(t).value)
  {
  }

  /** A row with a voucher number of digits gets that number, without leading
      zeros, as its external id, whatever its other fields say. */
  lemma ConvertedExternalId(t: IsracardTxn, processedDate: string, sha: string -> string)
    requires ConvertTransaction(t, processedDate).Ok? && ConvertTransaction(t, processedDate).value.Some?
    requires ConvertTransaction(t, processedDate).value.value.Converted?
    requires Voucher(t) != [] && AllDigits(Voucher(t))
    ensures var id := MakeExternalId(ConvertTransaction(t, processedDate).value.value.raw, sha);
      AllDigits(id) && DigitsValue(id) == DigitsValue(Voucher(t))
  {
    ParseInt10Digits(Voucher(t));
  }

  // ---------------------------------------------------------------------
  // Months to fetch

  /** A statement request: the 1-based month and the year. The request for
      month index `k` (see `MonthIndex`) is the one whose month and year give
      back `k`; the month range 1..12 makes it unique. */
  datatype MonthRequest = MonthRequest(month: int, year: int)

  /** The `month` query parameter: the month zero-padded to two digits. */
  function MonthParam(month: int): (r: string)
    requires 1 <= month <= 12
    ensures |r| == 2 && AllDigits(r) && DigitsValue(r) == month
  {
    DigitsValueOfNatToString(month);
    if month < 10 then
      var r := "0" + NatToString(month);
      assert r[..1] == "0" && r[..1][..0] == [];
      r
    else
      assert NatToString(month) == NatToString(1) + [DigitChar(month % 10)];
      NatToString(month)
  }

  /** `cursor.setMonth(cursor.getMonth() + 1)` on the 1st of month `month`
      of `year`: the 1st of the next month, with December carried into
      January of the next year. */
  method NextMonth(year: int, month: int) returns (year': int, month': int, cursor': int)
    requires 0 <= month < 12
    ensures 0 <= month' < 12 && cursor' == MonthStart(year', month')
    ensures MonthIndex(year', month') == MonthIndex(year, month) + 1
    ensures cursor' > MonthStart(year, month)
    ensures MonthRequest(month' + 1, year') == NextRequest(MonthRequest(month + 1, year))
  {
    year', month' := year, month + 1;
    if month == 11 {
      year', month' := year + 1, 0;
    }
    CursorStep(year, month, year', month');
    FirstOfMonthInYear(year, month);
    FirstOfMonthInYear(year', month');
    cursor' := MonthStart(year', month');
  }

  /** `setMonth(getMonth() + 1)` on the 1st of a month: the 1st of the next
      month, later than the cursor, with December carried into January. */
  lemma CursorStep(year: int, month: int, year': int, month': int)
    requires 0 <= month < 12
    requires if month == 11 then year' == year + 1 && month' == 0 else year' == year && month' == month + 1
    ensures MonthIndex(year', month') == MonthIndex(year, month) + 1
    ensures FirstOfMonth(year', month') > FirstOfMonth(year, month)
  {
    NextMonthStart(year, month);
    assert month / 12 == 0 && month % 12 == month;
    if month == 11 {
      MonthCarry(year, 0, 1);
    } else {
      assert (month + 1) / 12 == 0 && (month + 1) % 12 == month + 1;
    }
  }

  /** The request for the month after `r`'s. */
  function NextRequest(r: MonthRequest): (next: MonthRequest)
    requires 1 <= r.month <= 12
    ensures 1 <= next.month <= 12
  {
    if r.month == 12 then MonthRequest(1, r.year + 1) else MonthRequest(r.month + 1, r.year)
  }

  /** The requested month has begun by `today`. */
  predicate Begun(r: MonthRequest, today: int)
    requires 1 <= r.month <= 12
  {
    MonthStart(r.year, r.month - 1) <= today
  }

  /** The months a scrape fetches: from the start date's month up to the
      current month, one request per month, with December carried into
      January of the next year. The cursor is the 1st of a month; every
      requested month has begun by `today` and the month after the last one
      has not. */
  method MonthsToScrape(startYear: int, startMonth: int, today: int) returns (months: seq<MonthRequest>)
    requires 0 <= startMonth < 12
    ensures forall i :: 0 <= i < |months| ==>
      1 <= months[i].month <= 12 && MonthIndex(months[i].year, months[i].month - 1) == MonthIndex(startYear, startMonth) + i
    ensures forall i :: 0 <= i < |months| ==> Begun(months[i], today)
    ensures !Begun(if |months| == 0 then MonthRequest(startMonth + 1, startYear) else NextRequest(months[|months| - 1]), today)
  {
    var year, month := startYear, startMonth;
    var cursor := MonthStart(year, month);
    months := [];
    while cursor <= today
      invariant 0 <= month < 12 && cursor == MonthStart(year, month)
      invariant MonthIndex(year, month) == MonthIndex(startYear, startMonth) + |months|
      invariant Consecutive(months, MonthIndex(startYear, startMonth))
      invariant |months| > 0 ==> Begun(months[|months| - 1], today)
      invariant |months| == 0 ==> year == startYear && month == startMonth
      invariant |months| > 0 ==> NextRequest(months[|months| - 1]) == MonthRequest(month + 1, year)
      decreases today - cursor
    {
      RequestBegun(year, month, today);
      ConsecutiveAppend(months, MonthIndex(startYear, startMonth), year, month);
      months := months + [MonthRequest(month + 1, year)];
      year, month, cursor := NextMonth(year, month);
    }
    RequestNotBegun(year, month, today);
    RequestsNotAfter(months, MonthIndex(startYear, startMonth), today);
  }

  /** Request `i` names the month with index `first + i`. */
  predicate Consecutive(months: seq<MonthRequest>, first: int) {
    forall i :: 0 <= i < |months| ==>
      1 <= months[i].month <= 12 && MonthIndex(months[i].year, months[i].month - 1) == first + i
  }

  lemma ConsecutiveAppend(months: seq<MonthRequest>, first: int, year: int, month: int)
    requires Consecutive(months, first) && 0 <= month < 12 && MonthIndex(year, month) == first + |months|
    ensures Consecutive(months + [MonthRequest(month + 1, year)], first)
  {
  }

  /** When the last requested month has begun by `today`, so have all the
      earlier ones. */
  lemma RequestsNotAfter(months: seq<MonthRequest>, first: int, today: int)
    requires forall i :: 0 <= i < |months| ==>
      1 <= months[i].month <= 12 && MonthIndex(months[i].year, months[i].month - 1) == first + i
    requires |months| > 0 ==> Begun(months[|months| - 1], today)
    ensures forall i :: 0 <= i < |months| ==> Begun(months[i], today)
  {
    forall i | 0 <= i < |months|
      ensures Begun(months[i], today)
    {
      BegunBefore(months[i], months[|months| - 1], today);
    }
  }

  /** A month no later than one that has begun has begun too. */
  lemma BegunBefore(r: MonthRequest, last: MonthRequest, today: int)
    requires 1 <= r.month <= 12 && 1 <= last.month <= 12
    requires MonthIndex(r.year, r.month - 1) <= MonthIndex(last.year, last.month - 1)
    requires Begun(last, today)
    ensures Begun(r, today)
  {
    var a, b := MonthIndex(r.year, r.month - 1), MonthIndex(last.year, last.month - 1);
    FirstOfMonthByIndex(r.year, r.month - 1);
    FirstOfMonthByIndex(last.year, last.month - 1);
    FirstOfMonthInYear(r.year, r.month - 1);
    FirstOfMonthInYear(last.year, last.month - 1);
    MonotoneFirst(a, b);
  }

  /** The request made at a cursor that has begun names a month that has begun. */
  lemma RequestBegun(year: int, month: int, today: int)
    requires 0 <= month < 12 && MonthStart(year, month) <= today
    ensures Begun(MonthRequest(month + 1, year), today)
  {
  }

  /** The request made at a cursor that has not begun names a month that has not begun. */
  lemma RequestNotBegun(year: int, month: int, today: int)
    requires 0 <= month < 12 && MonthStart(year, month) > today
    ensures !Begun(MonthRequest(month + 1, year), today)
  {
  }

  // ---------------------------------------------------------------------
  // Collecting the rows

  /** The rows of one month's statement and the processing date it came with. */
  datatype MonthStatement = MonthStatement(transactions: seq<IsracardTxn>, processedDate: string)

  /** What the scrape returns. */
  datatype ScrapeResult = ScrapeResult(success: bool, transactions: seq<RawTransaction>, error: Option<string>)

  /** The day `new Date(text)` gives: the day an ISO midnight text names, and
      for any other text what the parameter `otherDate` says (none when the
      text is not a date). */
  function DateValue(text: string, otherDate: string -> Option<int>): Option<int> {
    if IsIsoMidnight(text) then Some(IsoDay(text)) else otherDate(text)
  }

  /** The start-date filter: the row's date is a day no earlier than the start. */
  predicate OnOrAfter(raw: RawTransaction, start: int, otherDate: string -> Option<int>) {
    var d := DateValue(raw.date, otherDate);
    d.Some? && d.value >= start
  }

  /** What one statement row contributes: its converted transaction when it
      is dated on or after the start; nothing when it is skipped, dated before
      the start or dated `undefined` (an invalid date, and every comparison
      with one is false); or the conversion error. A purchase abroad without
      its payment sum contributes nothing either, since amounts here are
      integers and have no `NaN`. */
  function KeptRow(t: IsracardTxn, processedDate: string, start: int, otherDate: string -> Option<int>)
    : (r: Result<seq<RawTransaction>>)
    ensures r.Ok? ==> |r.value| <= 1 && forall i :: 0 <= i < |r.value| ==> OnOrAfter(r.value[i], start, otherDate)
    ensures r.Err? <==> ConvertTransaction(t, processedDate).Err?
    ensures r.Err? ==> r.message == ConvertTransaction(t, processedDate).message
  {
    match ConvertTransaction(t, processedDate)
    case Err(e) => Err(e)
    case Ok(Some(Converted(raw))) => if OnOrAfter(raw, start, otherDate) then Ok([raw]) else Ok([])
    case Ok(_) => Ok([])
  }

  /** A row that converts is kept exactly when it is a transaction dated on or after the start. */
  lemma KeptRowOfConverted(t: IsracardTxn, processedDate: string, start: int, otherDate: string -> Option<int>)
    requires ConvertTransaction(t, processedDate).Ok?
    ensures var c := ConvertTransaction(t, processedDate).value;
      KeptRow(t, processedDate, start, otherDate)
        == Ok(if c.Some? && c.value.Converted? && OnOrAfter(c.value.raw, start, otherDate) then [c.value.raw] else [])
  {
  }

  /** A purchase abroad that the service sent without its purchase date
      contributes nothing and fails nothing once its payment date is valid;
      one sent without its payment sum contributes nothing when it converts. */
  lemma MissingAbroadFields(t: IsracardTxn, processedDate: string, start: int, otherDate: string -> Option<int>)
    requires IsOutbound(t)
    ensures t.fullPurchaseDateOutbound.None? && ProcessedDateOf(t, processedDate).Ok?
      ==> KeptRow(t, processedDate, start, otherDate) == Ok([])
    ensures t.paymentSumOutbound.None? && KeptRow(t, processedDate, start, otherDate).Ok?
      ==> KeptRow(t, processedDate, start, otherDate).value == []
  {
  }

  /** The rows kept from one statement, in order, or the first conversion error. */
  function KeptRows(txns: seq<IsracardTxn>, processedDate: string, start: int, otherDate: string -> Option<int>)
    : Result<seq<RawTransaction>>
  {
    if txns == [] then Ok([])
    else
      match KeptRows(txns[..|txns| - 1], processedDate, start, otherDate)
      case Err(e) => Err(e)
      case Ok(rows) =>
        match KeptRow(txns[|txns| - 1], processedDate, start, otherDate)
        case Err(e) => Err(e)
        case Ok(more) => Ok(rows + more)
  }

  /** One more statement row: the kept rows grow by what that row contributes. */
  lemma KeptRowsStep(txns: seq<IsracardTxn>, j: int, processedDate: string, start: int, otherDate: string -> Option<int>)
    requires 0 <= j < |txns|
    requires KeptRows(txns[..j], processedDate, start, otherDate).Ok?
    ensures KeptRows(txns[..j + 1], processedDate, start, otherDate)
      == match KeptRow(txns[j], processedDate, start, otherDate)
         case Err(e) => Err(e)
         case Ok(more) => Ok(KeptRows(txns[..j], processedDate, start, otherDate).value + more)
  {
    assert txns[..j + 1][..j] == txns[..j];
    assert txns[..j + 1][j] == txns[j];
  }

  /** The rows kept from all statements, month after month, or the first error. */
  function Collected(statements: seq<MonthStatement>, start: int, otherDate: string -> Option<int>)
    : Result<seq<RawTransaction>>
  {
    if statements == [] then Ok([])
    else
      var last := statements[|statements| - 1];
      match Collected(statements[..|statements| - 1], start, otherDate)
      case Err(e) => Err(e)
      case Ok(rows) =>
        match KeptRows(last.transactions, last.processedDate, start, otherDate)
        case Err(e) => Err(e)
        case Ok(more) => Ok(rows + more)
  }

  /** Once a statement row fails, every longer statement fails with the same error. */
  lemma {:induction false} KeptRowsErrStays(txns: seq<IsracardTxn>, more: seq<IsracardTxn>, processedDate: string,
                                            start: int, otherDate: string -> Option<int>)
    requires KeptRows(txns, processedDate, start, otherDate).Err?
    ensures KeptRows(txns + more, processedDate, start, otherDate) == KeptRows(txns, processedDate, start, otherDate)
    decreases |more|
  {
    if more == [] {
      assert txns + more == txns;
    } else {
      var init := more[..|more| - 1];
      assert (txns + more)[..|txns + more| - 1] == txns + init;
      KeptRowsErrStays(txns, init, processedDate, start, otherDate);
    }
  }

  /** Once a statement fails, every longer list of statements fails with the same error. */
  lemma {:induction false} CollectedErrStays(statements: seq<MonthStatement>, more: seq<MonthStatement>,
                                             start: int, otherDate: string -> Option<int>)
    requires Collected(statements, start, otherDate).Err?
    ensures Collected(statements + more, start, otherDate) == Collected(statements, start, otherDate)
    decreases |more|
  {
    if more == [] {
      assert statements + more == statements;
    } else {
      var init := more[..|more| - 1];
      assert (statements + more)[..|statements + more| - 1] == statements + init;
      CollectedErrStays(statements, init, start, otherDate);
    }
  }

  /** Every kept row passes the start-date filter, and there are no more kept
      rows than statement rows. */
  lemma {:induction false} KeptRowsOnOrAfter(txns: seq<IsracardTxn>, processedDate: string, start: int,
                                             otherDate: string -> Option<int>)
    requires KeptRows(txns, processedDate, start, otherDate).Ok?
    ensures var rows := KeptRows(txns, processedDate, start, otherDate).value;
      |rows| <= |txns| && forall i :: 0 <= i < |rows| ==> OnOrAfter(rows[i], start, otherDate)
  {
    if txns != [] {
      KeptRowsOnOrAfter(txns[..|txns| - 1], processedDate, start, otherDate);
    }
  }

  /** Statement rows in total. */
  function RowCount(statements: seq<MonthStatement>): nat {
    if statements == [] then 0
    else RowCount(statements[..|statements| - 1]) + |statements[|statements| - 1].transactions|
  }

  /** Every collected row passes the start-date filter, and there are no
      more of them than statement rows. */
  lemma {:induction false} CollectedOnOrAfter(statements: seq<MonthStatement>, start: int,
                                              otherDate: string -> Option<int>)
    requires Collected(statements, start, otherDate).Ok?
    ensures var rows := Collected(statements, start, otherDate).value;
      |rows| <= RowCount(statements) && forall i :: 0 <= i < |rows| ==> OnOrAfter(rows[i], start, otherDate)
  {
    if statements != [] {
      var init, last := statements[..|statements| - 1], statements[|statements| - 1];
      CollectedOnOrAfter(init, start, otherDate);
      KeptRowsOnOrAfter(last.transactions, last.processedDate, start, otherDate);
    }
  }

  /** The statements fetched for the requested months, in request order. */
  function StatementsFor(months: seq<MonthRequest>, fetch: (string, string) -> MonthStatement): (r: seq<MonthStatement>)
    requires forall i :: 0 <= i < |months| ==> 1 <= months[i].month <= 12
    ensures |r| == |months|
    ensures forall i :: 0 <= i < |months| ==> r[i] == fetch(MonthParam(months[i].month), IntToString(months[i].year))
  {
    seq(|months|, i requires 0 <= i < |months| => fetch(MonthParam(months[i].month), IntToString(months[i].year)))
  }

  /** A row that fails to convert fails the whole statement with its error. */
  lemma KeptRowsErrAt(txns: seq<IsracardTxn>, j: int, processedDate: string, start: int, otherDate: string -> Option<int>)
    requires 0 <= j < |txns|
    requires KeptRows(txns[..j], processedDate, start, otherDate).Ok?
    requires ConvertTransaction(txns[j], processedDate).Err?
    ensures KeptRows(txns, processedDate, start, otherDate) == Err(ConvertTransaction(txns[j], processedDate).message)
  {
    KeptRowsStep(txns, j, processedDate, start, otherDate);
    KeptRowsErrStays(txns[..j + 1], txns[j + 1..], processedDate, start, otherDate);
    assert txns[..j + 1] + txns[j + 1..] == txns;
  }

  /** A row that converts adds itself to the kept rows when it is a
      transaction dated on or after the start, and nothing otherwise. */
  lemma KeptRowsOkAt(txns: seq<IsracardTxn>, j: int, processedDate: string, start: int, otherDate: string -> Option<int>)
    requires 0 <= j < |txns|
    requires KeptRows(txns[..j], processedDate, start, otherDate).Ok?
    requires ConvertTransaction(txns[j], processedDate).Ok?
    ensures var c := ConvertTransaction(txns[j], processedDate).value;
      KeptRows(txns[..j + 1], processedDate, start, otherDate)
        == Ok(KeptRows(txns[..j], processedDate, start, otherDate).value
              + (if c.Some? && c.value.Converted? && OnOrAfter(c.value.raw, start, otherDate) then [c.value.raw] else []))
  {
    KeptRowsStep(txns, j, processedDate, start, otherDate);
    KeptRowOfConverted(txns[j], processedDate, start, otherDate);
  }

  /** One row of a statement: converted, and appended to `collected` when it
      is a transaction dated on or after the start. `rows` are the rows kept
      from the statement so far. */
  method KeepRow(txns: seq<IsracardTxn>, j: int, processedDate: string, start: int, otherDate: string -> Option<int>,
                 all: seq<RawTransaction>, ghost rows: seq<RawTransaction>, collected: seq<RawTransaction>)
    returns (collected': seq<RawTransaction>, ghost rows': seq<RawTransaction>, error: Option<string>)
    requires 0 <= j < |txns|
    requires KeptRows(txns[..j], processedDate, start, otherDate) == Ok(rows)
    requires collected == all + rows
    ensures error.None? ==>
      && KeptRows(txns[..j + 1], processedDate, start, otherDate) == Ok(rows')
      && collected' == all + rows'
    ensures error.Some? ==> KeptRows(txns, processedDate, start, otherDate) == Err(error.value)
  {
    var converted := ConvertTransaction(txns[j], processedDate);
    if converted.Err? {
      KeptRowsErrAt(txns, j, processedDate, start, otherDate);
      return collected, rows, Some(converted.message);
    }
    KeptRowsOkAt(txns, j, processedDate, start, otherDate);
    var more: seq<RawTransaction> := [];
    if converted.value.Some? && converted.value.value.Converted? && OnOrAfter(converted.value.value.raw, start, otherDate) {
      more := [converted.value.value.raw];
    }
    collected', rows', error := collected + more, rows + more, None;
  }

  /** The rows of one statement that are kept, appended to `all`; the first
      row that fails to convert ends the scrape with its error. */
  method CollectStatement(statement: MonthStatement, start: int, otherDate: string -> Option<int>,
                          all: seq<RawTransaction>) returns (all': seq<RawTransaction>, error: Option<string>)
    ensures var kept := KeptRows(statement.transactions, statement.processedDate, start, otherDate);
      if kept.Ok? then error.None? && all' == all + kept.value else error == Some(kept.message)
  {
    var txns := statement.transactions;
    all' := all;
    ghost var rows: seq<RawTransaction> := [];
    for j := 0 to |txns|
      invariant KeptRows(txns[..j], statement.processedDate, start, otherDate) == Ok(rows)
      invariant all' == all + rows
    {
      var rowError;
      all', rows, rowError := KeepRow(txns, j, statement.processedDate, start, otherDate, all, rows, all');
      if rowError.Some? {
        return all', rowError;
      }
    }
    assert txns[..|txns|] == txns;
    error := None;
  }

  /** The collection loop of `scrapeIsracard`: the statement of every
      requested month, in order, each row converted and kept when it is dated
      on or after the start. The first conversion error fails the whole
      scrape with no transactions. */
  method CollectMonths(statements: seq<MonthStatement>, start: int, otherDate: string -> Option<int>)
    returns (result: ScrapeResult)
    ensures var c := Collected(statements, start, otherDate);
      result == if c.Ok? then ScrapeResult(true, c.value, None) else ScrapeResult(false, [], Some(c.message))
  {
    var all: seq<RawTransaction> := [];
    for i := 0 to |statements|
      invariant Collected(statements[..i], start, otherDate) == Ok(all)
    {
      assert statements[..i + 1][..i] == statements[..i];
      var error;
      all, error := CollectStatement(statements[i], start, otherDate, all);
      if error.Some? {
        assert Collected(statements[..i + 1], start, otherDate) == Err(error.value);
        CollectedErrStays(statements[..i + 1], statements[i + 1..], start, otherDate);
        assert statements[..i + 1] + statements[i + 1..] == statements;
        return ScrapeResult(false, [], error);
      }
    }
    assert statements[..|statements|] == statements;
    result := ScrapeResult(true, all, None);
  }

  /** `scrapeIsracard` after logging in: the months from the start date's
      month (`startYear`, `startMonth`, 0-based) to the current one, each
      month's statement as `fetch` returns it for the request's `month` and
      `year` parameters, and the kept rows of all of them. */
  method ScrapeIsracard(startYear: int, startMonth: int, start: int, today: int,
                        fetch: (string, string) -> MonthStatement, otherDate: string -> Option<int>)
    returns (months: seq<MonthRequest>, result: ScrapeResult)
    requires 0 <= startMonth < 12
    ensures forall i :: 0 <= i < |months| ==>
      1 <= months[i].month <= 12 && MonthIndex(months[i].year, months[i].month - 1) == MonthIndex(startYear, startMonth) + i
    ensures forall i :: 0 <= i < |months| ==> Begun(months[i], today)
    ensures !Begun(if |months| == 0 then MonthRequest(startMonth + 1, startYear) else NextRequest(months[|months| - 1]), today)
    ensures var c := Collected(StatementsFor(months, fetch), start, otherDate);
      result == if c.Ok? then ScrapeResult(true, c.value, None) else ScrapeResult(false, [], Some(c.message))
  {
    months := MonthsToScrape(startYear, startMonth, today);
    var statements := StatementsFor(months, fetch);
    result := CollectMonths(statements, start, otherDate);
  }
}
