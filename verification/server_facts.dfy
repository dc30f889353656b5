/**
 Properties of the back end: the three conversion formulas and their error order,
 independence from letter case and from the table on invalid input, consistency
 of the formulas with each other, and what a refresh leaves in the table.
 */
module ServerFacts {
  import opened Wrappers
  import opened Text
  import opened Server

  /** Every stored rate is positive (true of any table the rates API fills). */
  predicate PositiveRates(t: Table) {
    forall i :: 0 <= i < |t| ==> t[i].rate > 0.0
  }

  function Request(from: string, to: string, amount: real): ConvertRequest {
    ConvertRequest(Some(from), Some(to), Amount(amount))
  }

  // ---------------------------------------------------------------------------
  // The three branches of convert_currency
  // ---------------------------------------------------------------------------

  /** USD to X: the result is `amount * rate[X]`; without a rate for X the error names X. */
  lemma ConvertFromUsd(t: Table, to: string, amount: real, toRate: real)
    requires to != "" && NoLower(to) && amount > 0.0
    ensures FindRate(t, to).None? ==> Convert(t, Request(USD, to, amount)) == Err(NoRateFor(to))
    ensures FindRate(t, to) == Some(toRate) ==>
              Convert(t, Request(USD, to, amount)) == Converted(USD, to, amount, amount * toRate)
  {
    UpperOfNoLower(USD);
    UpperOfNoLower(to);
    if FindRate(t, to) == Some(toRate) {
      var r := Convert(t, Request(USD, to, amount));
      assert r.value.result == amount * toRate;
    }
  }

  /** X to USD: the result is `amount / rate[X]`; without a rate for X the error names X,
      and a zero rate makes the division raise. */
  lemma ConvertToUsd(t: Table, from: string, amount: real, fromRate: real)
    requires from != "" && from != USD && NoLower(from) && amount > 0.0
    ensures FindRate(t, from).None? ==> Convert(t, Request(from, USD, amount)) == Err(NoRateFor(from))
    ensures FindRate(t, from) == Some(0.0) ==>
              Convert(t, Request(from, USD, amount)) == Err(Crashed("ZeroDivisionError"))
    ensures FindRate(t, from) == Some(fromRate) && fromRate != 0.0 ==>
              Convert(t, Request(from, USD, amount)) == Converted(from, USD, amount, amount / fromRate)
  {
    UpperOfNoLower(USD);
    UpperOfNoLower(from);
  }

  /** X to Y, neither USD: the result uses the cross rate `rate[Y] / rate[X]`. The rate
      for X is looked up first, so when both are missing the error names X. */
  lemma ConvertCross(t: Table, from: string, to: string, amount: real, fromRate: real, toRate: real)
    requires from != "" && from != USD && NoLower(from)
    requires to != "" && to != USD && NoLower(to) && amount > 0.0
    ensures FindRate(t, from).None? ==> Convert(t, Request(from, to, amount)) == Err(NoRateFor(from))
    ensures FindRate(t, from).Some? && FindRate(t, to).None? ==>
              Convert(t, Request(from, to, amount)) == Err(NoRateFor(to))
    ensures FindRate(t, from) == Some(0.0) && FindRate(t, to).Some? ==>
              Convert(t, Request(from, to, amount)) == Err(Crashed("ZeroDivisionError"))
    ensures FindRate(t, from) == Some(fromRate) && FindRate(t, to) == Some(toRate) && fromRate != 0.0 ==>
              Convert(t, Request(from, to, amount)) == Converted(from, to, amount, amount * (toRate / fromRate))
  {
    UpperOfNoLower(from);
    UpperOfNoLower(to);
    if FindRate(t, from) == Some(fromRate) && FindRate(t, to) == Some(toRate) && fromRate != 0.0 {
      var r := Convert(t, Request(from, to, amount));
      assert r.value.result == amount * (toRate / fromRate);
    }
  }

  // ---------------------------------------------------------------------------
  // Normalisation and validation
  // ---------------------------------------------------------------------------

  /** Invalid input is answered before any rate is looked up: the reply does not depend on the table. */
  lemma InvalidInputIgnoresTable(t1: Table, t2: Table, req: ConvertRequest)
    requires req.amount.Raises() ||
             !ValidInput(Normalise(req.fromCurrency), Normalise(req.toCurrency), AmountOf(req.amount))
    ensures Convert(t1, req) == Convert(t2, req)
    ensures Convert(t1, req).Err?
  {
  }

  /** A missing currency field or a non-positive amount is rejected as invalid input. */
  lemma MissingFieldRejected(t: Table, from: Option<string>, to: Option<string>, amount: real)
    requires from.None? || to.None? || amount <= 0.0
    ensures Convert(t, ConvertRequest(from, to, Amount(amount))) == Err(InvalidInput)
  {
  }

  /** A request without an amount reads it as 0 and is rejected as invalid input. */
  lemma MissingAmountRejected(t: Table, from: Option<string>, to: Option<string>)
    ensures Convert(t, ConvertRequest(from, to, NoAmount)) == Err(InvalidInput)
  {
  }

  /** Currency codes are case-insensitive: upper-casing either field changes nothing. */
  lemma ConvertCaseInsensitive(t: Table, from: string, to: string, amount: AmountField)
    ensures Convert(t, ConvertRequest(Some(from), Some(to), amount))
         == Convert(t, ConvertRequest(Some(Upper(from)), Some(Upper(to)), amount))
  {
    UpperIdempotent(from);
    UpperIdempotent(to);
    assert Normalise(Some(Upper(from))) == Normalise(Some(from));
    assert Normalise(Some(Upper(to))) == Normalise(Some(to));
  }

  // ---------------------------------------------------------------------------
  // Success and consistency of the formulas
  // ---------------------------------------------------------------------------

  /** The rates that the branch chosen for `from` and `to` needs are in the table. */
  predicate RatesAvailable(t: Table, from: string, to: string) {
    if from == USD then FindRate(t, to).Some?
    else FindRate(t, from).Some? && (to == USD || FindRate(t, to).Some?)
  }

  /** With positive rates, a conversion succeeds exactly when the input is valid and
      the needed rates are stored, and then its result is positive. */
  lemma ConvertSucceedsIff(t: Table, req: ConvertRequest)
    requires PositiveRates(t)
    ensures Convert(t, req).Ok? <==>
              && !req.amount.Raises()
              && ValidInput(Normalise(req.fromCurrency), Normalise(req.toCurrency), AmountOf(req.amount))
              && RatesAvailable(t, Normalise(req.fromCurrency), Normalise(req.toCurrency))
    ensures Convert(t, req).Ok? ==> Convert(t, req).value.result > 0.0 && Convert(t, req).value.rate > 0.0
  {
    var from, to := Normalise(req.fromCurrency), Normalise(req.toCurrency);
    if from != USD && FindRate(t, from).Some? {
      var j :| 0 <= j < |t| && Quotes(t[j], from) && t[j].rate == FindRate(t, from).value;
    }
    if FindRate(t, to).Some? {
      var j :| 0 <= j < |t| && Quotes(t[j], to) && t[j].rate == FindRate(t, to).value;
    }
  }

  /** Converting X to USD and the result back from USD to X returns the original amount. */
  lemma RoundTripThroughUsd(t: Table, x: string, amount: real)
    requires PositiveRates(t)
    requires x != "" && x != USD && NoLower(x) && amount > 0.0
    requires FindRate(t, x).Some?
    ensures var there := Convert(t, Request(x, USD, amount));
            there.Ok? &&
            var back := Convert(t, Request(USD, x, there.value.result));
            back.Ok? && back.value.result == amount
  {
    var j :| 0 <= j < |t| && Quotes(t[j], x) && t[j].rate == FindRate(t, x).value;
    var rate := FindRate(t, x).value;
    RoundTripArithmetic(amount, rate);
    ConvertToUsd(t, x, amount, rate);
    ConvertFromUsd(t, x, amount / rate, rate);
  }

  lemma RoundTripArithmetic(amount: real, rate: real)
    requires rate > 0.0 && amount > 0.0
    ensures amount / rate > 0.0
    ensures (amount / rate) * rate == amount
  {
  }

  /** The cross rate agrees with going through USD: X to Y equals X to USD followed by USD to Y. */
  lemma CrossRateThroughUsd(t: Table, from: string, to: string, amount: real)
    requires PositiveRates(t)
    requires from != "" && from != USD && NoLower(from)
    requires to != "" && to != USD && NoLower(to) && amount > 0.0
    requires FindRate(t, from).Some? && FindRate(t, to).Some?
    ensures var direct := Convert(t, Request(from, to, amount));
            var first := Convert(t, Request(from, USD, amount));
            direct.Ok? && first.Ok? &&
            var second := Convert(t, Request(USD, to, first.value.result));
            second.Ok? && second.value.result == direct.value.result
  {
    var j :| 0 <= j < |t| && Quotes(t[j], from) && t[j].rate == FindRate(t, from).value;
    var rf, rt := FindRate(t, from).value, FindRate(t, to).value;
    CrossRateArithmetic(amount, rf, rt);
    ConvertCross(t, from, to, amount, rf, rt);
    ConvertToUsd(t, from, amount, rf);
    ConvertFromUsd(t, to, amount / rf, rt);
  }

  lemma CrossRateArithmetic(amount: real, rf: real, rt: real)
    requires rf > 0.0 && amount > 0.0
    ensures amount / rf > 0.0
    ensures (amount / rf) * rt == amount * (rt / rf)
  {
  }

  // ---------------------------------------------------------------------------
  // The table after a refresh
  // ---------------------------------------------------------------------------

  /** The rate the first entry for `c` of a downloaded `rates` dictionary gives. */
  function QuoteIn(rates: seq<(string, real)>, c: string): (r: Option<real>)
    ensures r.None? <==> forall i :: 0 <= i < |rates| ==> rates[i].0 != c
  {
    if rates == [] then None
    else if rates[0].0 == c then Some(rates[0].1)
    else QuoteIn(rates[1..], c)
  }

  /** No currency occurs twice among the keys (a Python dictionary). */
  predicate DistinctKeys(rates: seq<(string, real)>) {
    forall i, j :: 0 <= i < j < |rates| ==> rates[i].0 != rates[j].0
  }

  /** After a USD-based refresh, the rate used for any currency is the downloaded one. */
  lemma {:induction false} FindRateAfterRefresh(rates: seq<(string, real)>, now: Instant, c: string)
    ensures FindRate(RowsFor(USD, rates, now), c) == QuoteIn(rates, c)
  {
    if rates != [] {
      var rows := RowsFor(USD, rates, now);
      if rates[0].0 != c {
        FindRateAfterRefresh(rates[1..], now, c);
        assert rows[1..] == RowsFor(USD, rates[1..], now);
        assert FirstQuote(rows, c) == 1 + FirstQuote(rows[1..], c);
      }
    }
  }

  /** With distinct keys, the downloaded rate for a key is the one stored with it. */
  lemma {:induction false} QuoteInDistinct(rates: seq<(string, real)>, i: nat)
    requires DistinctKeys(rates) && i < |rates|
    ensures QuoteIn(rates, rates[i].0) == Some(rates[i].1)
  {
    if i > 0 {
      var tail := rates[1..];
      assert DistinctKeys(tail) by {
        forall a, b | 0 <= a < b < |tail| ensures tail[a].0 != tail[b].0 {
          assert tail[a] == rates[a + 1] && tail[b] == rates[b + 1];
        }
      }
      QuoteInDistinct(tail, i - 1);
      assert tail[i - 1] == rates[i];
    }
  }

  /** A successful refresh leaves exactly one row per downloaded currency, all with the
      downloaded base and the refresh time; no earlier row survives. When the base is
      USD, the rate later used for each currency is the downloaded one; otherwise no
      conversion finds a rate. */
  lemma RefreshReplacesTable(t: Table, p: Payload, now: Instant)
    requires p.base.Some? && p.rates.Some? && DistinctKeys(p.rates.value)
    ensures var r := FetchExchangeRates(t, Some(p), now);
            && r.0
            && |r.1| == |p.rates.value|
            && (forall i, j :: 0 <= i < j < |r.1| ==> r.1[i].target != r.1[j].target)
            && (forall i :: 0 <= i < |p.rates.value| ==> exists j :: 0 <= j < |r.1| && r.1[j].target == p.rates.value[i].0)
            && (forall row :: row in r.1 ==> row.base == p.base.value && row.updated == now)
            && (p.base.value == USD ==> forall i :: 0 <= i < |p.rates.value| ==>
                  FindRate(r.1, p.rates.value[i].0) == Some(p.rates.value[i].1))
            && (p.base.value != USD ==> forall c :: FindRate(r.1, c).None?)
  {
    var rates := p.rates.value;
    var rows := FetchExchangeRates(t, Some(p), now).1;
    assert rows == RowsFor(p.base.value, rates, now);
    forall i | 0 <= i < |rates| ensures exists j :: 0 <= j < |rows| && rows[j].target == rates[i].0 {
      assert rows[i].target == rates[i].0;
    }
    if p.base.value == USD {
      forall i | 0 <= i < |rates| ensures FindRate(rows, rates[i].0) == Some(rates[i].1) {
        FindRateAfterRefresh(rates, now, rates[i].0);
        QuoteInDistinct(rates, i);
      }
    }
  }

  /** A failed download (no reply, or a body without `base` or `rates`) leaves the table as it was. */
  lemma FailedRefreshKeepsTable(t: Table, reply: Option<Payload>, now: Instant)
    requires reply.None? || reply.value.base.None? || reply.value.rates.None?
    ensures FetchExchangeRates(t, reply, now) == (false, t)
  {
  }
}
