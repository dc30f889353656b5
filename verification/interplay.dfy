/**
 How the controller's requests meet the back end's handler: the JSON body the
 page posts to `/api/convert`, as the server reads it.
 */
module Interplay {
  import opened Wrappers
  import opened Text
  import Client
  import Server

  /** `JSON.stringify` of a number: a finite value is written as is, NaN and the
      infinities are written as `null`. */
  function JsonNumber(n: Client.Number): (field: Server.AmountField)
    ensures n.Finite? ==> field == Server.Amount(n.value)
    ensures !n.Finite? <==> field == Server.NullAmount
  {
    if n.Finite? then Server.Amount(n.value) else Server.NullAmount
  }

  /** The server's reading of a body posted by the page: all three fields present. */
  function Decoded(body: Client.ConvertBody): (req: Server.ConvertRequest)
    ensures req.fromCurrency == Some(body.fromCurrency) && req.toCurrency == Some(body.toCurrency)
    ensures req.amount == JsonNumber(body.amount)
  {
    Server.ConvertRequest(Some(body.fromCurrency), Some(body.toCurrency), JsonNumber(body.amount))
  }

  /** Every request the page sends passes the server's input check: whatever the
      rate table, the reply is never "Invalid input data". A finite amount never makes
      `float()` raise; an amount that parsed to Infinity reaches the server as `null`,
      and `float(None)` raises TypeError. */
  lemma SentRequestsPassServerCheck(p: Client.Page, rt: Client.Runtime, t: Server.Table)
    requires Client.ValidForm(p, rt)
    ensures var q := Client.Submit(p, rt);
            var body := q.requests[|p.requests|].body;
            var reply := Server.Convert(t, Decoded(body));
            && reply != Err(Server.InvalidInput)
            && (body.amount.Finite? ==>
                  reply != Err(Server.Crashed("ValueError")) && reply != Err(Server.Crashed("TypeError")))
            && (body.amount.PositiveInfinity? ==> reply == Err(Server.Crashed("TypeError")))
  {
    var body := Client.Submit(p, rt).requests[|p.requests|].body;
    assert Server.Normalise(Some(body.fromCurrency)) != "";
    assert Server.Normalise(Some(body.toCurrency)) != "";
  }

  /** The page offers only upper-case codes, so a successful reply echoes exactly the
      currencies and the amount the page sent. */
  lemma ServerEchoesOfferedCurrencies(body: Client.ConvertBody, t: Server.Table)
    requires body.fromCurrency in Client.Currencies && body.toCurrency in Client.Currencies
    ensures var reply := Server.Convert(t, Decoded(body));
            reply.Ok? ==>
              && reply.value.fromCurrency == body.fromCurrency
              && reply.value.toCurrency == body.toCurrency
              && body.amount == Client.Finite(reply.value.amount)
  {
    OfferedCodesAreUpper(body.fromCurrency);
    OfferedCodesAreUpper(body.toCurrency);
    UpperOfNoLower(body.fromCurrency);
    UpperOfNoLower(body.toCurrency);
  }

  lemma OfferedCodesAreUpper(c: string)
    requires c in Client.Currencies
    ensures NoLower(c)
  {
    var i :| 0 <= i < |Client.Currencies| && Client.Currencies[i] == c;
    if i == 0 { assert c == "USD"; }
    else if i == 1 { assert c == "EUR"; }
    else if i == 2 { assert c == "GBP"; }
    else if i == 3 { assert c == "JPY"; }
    else if i == 4 { assert c == "CAD"; }
    else if i == 5 { assert c == "AUD"; }
    else if i == 6 { assert c == "CHF"; }
    else if i == 7 { assert c == "CNY"; }
    else { assert c == "RUB"; }
  }
}
