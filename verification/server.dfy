/**
 The Flask back end of the converter: a table of USD-based exchange rates, its
 replacement by a fresh download, the latest-update query and the conversion
 handler. Database access is modelled by a sequence of rows in insertion order;
 HTTP replies by `Result` values whose error carries the status code and message.
 */
module Server {
  import opened Wrappers
  import opened Text

  /** A point in time, as stored in the `last_updated` column. */
  type Instant = int

  const USD := "USD"

  /** One row of the `ExchangeRate` table: 1 `base` buys `rate` units of `target`. */
  datatype Row = Row(base: string, target: string, rate: real, updated: Instant)

  /** The rows of the table, in insertion order. */
  type Table = seq<Row>

  /** The error side of a reply: a JSON error body with its HTTP status, or an
      exception that escapes the handler (Flask answers it with a 500 page). */
  datatype Failure = Rejected(code: int, message: string) | Crashed(exception: string)

  // ---------------------------------------------------------------------------
  // Rate lookup: `ExchangeRate.query.filter_by(base_currency='USD', target_currency=c).first()`
  // ---------------------------------------------------------------------------

  /** Whether `row` is a USD-based quote for currency `c`. */
  predicate Quotes(row: Row, c: string) {
    row.base == USD && row.target == c
  }

  /** The position of the first USD-based quote for `c`, or `|t|` when there is none. */
  function FirstQuote(t: Table, c: string): (k: nat)
    ensures k <= |t|
    ensures k < |t| ==> Quotes(t[k], c)
    ensures forall j :: 0 <= j < k ==> !Quotes(t[j], c)
  {
    if t == [] then 0
    else if Quotes(t[0], c) then 0
    else 1 + FirstQuote(t[1..], c)
  }

  /** The USD-based rate for `c` that the first matching row holds, if any. */
  function FindRate(t: Table, c: string): (r: Option<real>)
    ensures r.None? <==> forall j :: 0 <= j < |t| ==> !Quotes(t[j], c)
    ensures r.Some? ==> exists j :: 0 <= j < |t| && Quotes(t[j], c) && t[j].rate == r.value
  {
    var k := FirstQuote(t, c);
    if k < |t| then Some(t[k].rate) else None
  }

  // ---------------------------------------------------------------------------
  // fetch_exchange_rates
  // ---------------------------------------------------------------------------

  /** The decoded JSON body of the rates API; a missing key is `None`. */
  datatype Payload = Payload(base: Option<string>, rates: Option<seq<(string, real)>>)

  /** The new rows for a download: one per entry of `rates`, in the dictionary's order. */
  function RowsFor(base: string, rates: seq<(string, real)>, now: Instant): (rows: Table)
    ensures |rows| == |rates|
    ensures forall i :: 0 <= i < |rates| ==>
              rows[i].base == base && rows[i].target == rates[i].0 &&
              rows[i].rate == rates[i].1 && rows[i].updated == now
  {
    if rates == [] then []
    else [Row(base, rates[0].0, rates[0].1, now)] + RowsFor(base, rates[1..], now)
  }

  /** Replaces the whole table by the rows of a fresh download. `reply` is `None`
      when the HTTP call or the JSON decoding raised; `now` is the insertion time.
      Returns whether the refresh succeeded together with the resulting table. */
  function FetchExchangeRates(t: Table, reply: Option<Payload>, now: Instant): (r: (bool, Table))
    ensures !r.0 ==> r.1 == t
    ensures r.0 <==> reply.Some? && reply.value.base.Some? && reply.value.rates.Some?
    ensures r.0 ==> |r.1| == |reply.value.rates.value|
    ensures r.0 ==> forall i :: 0 <= i < |r.1| ==>
              r.1[i].target == reply.value.rates.value[i].0 && r.1[i].rate == reply.value.rates.value[i].1
    ensures r.0 ==> forall row :: row in r.1 ==>
              row.base == reply.value.base.value && row.updated == now &&
              (row.target, row.rate) in reply.value.rates.value
  {
    match reply
    case None => (false, t)
    case Some(p) =>
      if p.base.None? || p.rates.None? then (false, t)
      else
        var rows := RowsFor(p.base.value, p.rates.value, now);
        assert forall row :: row in rows ==> (row.target, row.rate) in p.rates.value by {
          forall row | row in rows ensures (row.target, row.rate) in p.rates.value {
            var i :| 0 <= i < |rows| && rows[i] == row;
            assert p.rates.value[i] == (row.target, row.rate);
          }
        }
        (true, rows)
  }

  // ---------------------------------------------------------------------------
  // get_last_update
  // ---------------------------------------------------------------------------

  /** The latest `last_updated` over all rows (the first row of the query ordered
      by `last_updated` descending), or the 404 error when the table is empty. */
  method LastUpdate(t: Table) returns (r: Result<Instant, Failure>)
    ensures r.Ok? <==> |t| > 0
    ensures r.Ok? ==> exists i :: 0 <= i < |t| && t[i].updated == r.value
    ensures r.Ok? ==> forall i :: 0 <= i < |t| ==> t[i].updated <= r.value
    ensures r.Err? ==> r.error == Rejected(404, "No rates available")
  {
    if |t| == 0 {
      return Err(Rejected(404, "No rates available"));
    }
    var best := 0;
    var i := 1;
    while i < |t|
      invariant 1 <= i <= |t|
      invariant 0 <= best < i
      invariant forall j :: 0 <= j < i ==> t[j].updated <= t[best].updated
    {
      if t[i].updated > t[best].updated {
        best := i;
      }
      i := i + 1;
    }
    return Ok(t[best].updated);
  }

  // ---------------------------------------------------------------------------
  // convert_currency
  // ---------------------------------------------------------------------------

  /** The `amount` field of the request body: absent, a number, a string `float()`
      cannot parse (it raises ValueError), or JSON `null` (it raises TypeError). */
  datatype AmountField = NoAmount | Amount(value: real) | Unparsable | NullAmount {

    /** Whether `float()` raises on this field. */
    predicate Raises() {
      Unparsable? || NullAmount?
    }
  }

  /** The JSON body posted to `/api/convert`; an absent currency field is `None`. */
  datatype ConvertRequest = ConvertRequest(fromCurrency: Option<string>, toCurrency: Option<string>, amount: AmountField)

  /** The success body of `/api/convert`. */
  datatype Conversion = Conversion(fromCurrency: string, toCurrency: string, amount: real, result: real, rate: real)

  /** A currency field after `data.get(field, '').upper()`. */
  function Normalise(field: Option<string>): (code: string)
    ensures NoLower(code)
    ensures field.None? ==> code == ""
    ensures field.Some? ==> |code| == |field.value|
    ensures field.Some? ==> forall i :: 0 <= i < |code| ==> code[i] == UpperChar(field.value[i])
  {
    Upper(field.GetOr(""))
  }

  /** The amount after `float(data.get('amount', 0))`, for a field `float()` accepts:
      a missing field reads as 0. */
  function AmountOf(field: AmountField): (amount: real)
    requires !field.Raises()
    ensures field.NoAmount? ==> amount == 0.0
    ensures field.Amount? ==> amount == field.value
  {
    if field.Amount? then field.value else 0.0
  }

  /** The input check of the handler: both codes non-empty, amount positive. */
  predicate ValidInput(from: string, to: string, amount: real) {
    from != "" && to != "" && amount > 0.0
  }

  const InvalidInput := Rejected(400, "Invalid input data")

  function NoRateFor(c: string): Failure {
    Rejected(404, "No rate available for " + c)
  }

  /** The success reply for `amount` converted to `result`; its rate is `result / amount`. */
  function Converted(from: string, to: string, amount: real, result: real): (r: Result<Conversion, Failure>)
    requires amount > 0.0
    ensures r.Ok? && r.value.amount == amount && r.value.result == result
    ensures r.value.fromCurrency == from && r.value.toCurrency == to
    ensures r.value.result == r.value.amount * r.value.rate
  {
    Ok(Conversion(from, to, amount, result, result / amount))
  }

  /** The `/api/convert` handler over rate table `t`: the currency fields are
      normalised, then `Respond` validates and converts. */
  function Convert(t: Table, req: ConvertRequest): (r: Result<Conversion, Failure>)
    ensures req.amount.Unparsable? ==> r == Err(Crashed("ValueError"))
    ensures req.amount.NullAmount? ==> r == Err(Crashed("TypeError"))
    ensures !req.amount.Raises() && !ValidInput(Normalise(req.fromCurrency), Normalise(req.toCurrency), AmountOf(req.amount))
            ==> r == Err(InvalidInput)
    ensures r.Ok? ==>
              && !req.amount.Raises()
              && r.value.fromCurrency == Normalise(req.fromCurrency)
              && r.value.toCurrency == Normalise(req.toCurrency)
              && r.value.amount == AmountOf(req.amount) > 0.0
              && r.value.result == r.value.amount * r.value.rate
  {
    Respond(t, Normalise(req.fromCurrency), Normalise(req.toCurrency), req.amount)
  }

  /** The handler after normalisation: `float()` on the amount, the input check, then
      the USD-to-X, X-to-USD or cross-rate formula, each with its missing-rate error. */
  function Respond(t: Table, from: string, to: string, field: AmountField): (r: Result<Conversion, Failure>)
    ensures field.Unparsable? ==> r == Err(Crashed("ValueError"))
    ensures field.NullAmount? ==> r == Err(Crashed("TypeError"))
    ensures !field.Raises() && !ValidInput(from, to, AmountOf(field)) ==> r == Err(InvalidInput)
    ensures r.Ok? ==>
              && !field.Raises()
              && r.value.fromCurrency == from && r.value.toCurrency == to
              && r.value.amount == AmountOf(field) > 0.0
              && r.value.result == r.value.amount * r.value.rate
  {
    if field.Unparsable? then Err(Crashed("ValueError"))
    else if field.NullAmount? then Err(Crashed("TypeError"))
    else
      var amount := AmountOf(field);
      if !ValidInput(from, to, amount) then Err(InvalidInput)
      else if from == USD then
        match FindRate(t, to)
        case None => Err(NoRateFor(to))
        case Some(toRate) => Converted(from, to, amount, amount * toRate)
      else
        match FindRate(t, from)
        case None => Err(NoRateFor(from))
        case Some(fromRate) =>
          if to == USD then
            if fromRate == 0.0 then Err(Crashed("ZeroDivisionError"))
            else Converted(from, to, amount, amount / fromRate)
          else
            match FindRate(t, to)
            case None => Err(NoRateFor(to))
            case Some(toRate) =>
              if fromRate == 0.0 then Err(Crashed("ZeroDivisionError"))
              else Converted(from, to, amount, amount * (toRate / fromRate))
  }
}
