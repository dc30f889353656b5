/**
 The browser controller of the converter page as a state machine. The page is an
 immutable record of what the controller reads and writes (the two currency
 selectors, the amount field, the refresh button, the last-update line, the
 result box and the alerts shown) plus the list of HTTP requests issued so far.
 Every event handler is a pure transition; a network response is an argument of
 the transition that handles it.
 */
module Client {
  import opened Wrappers

  /** The currencies offered by both selectors, in display order. */
  const Currencies: seq<string> := ["USD", "EUR", "GBP", "JPY", "CAD", "AUD", "CHF", "CNY", "RUB"]

  const IdleLabel := "Update Rates"
  const BusyLabel := "<span class=\"updating\">↻</span> Updating..."
  const InvalidFields := "Please fill all fields with valid values."
  const RatesUpdated := "Exchange rates updated successfully!"
  const RatesNotUpdated := "Failed to update exchange rates."
  const RatesUnreachable := "An error occurred while updating rates."
  const ConversionFailed := "Conversion failed"
  const ConversionUnreachable := "An error occurred during conversion."

  /** A JavaScript number: NaN, a finite value, or an infinity. */
  datatype Number = NaN | Finite(value: real) | PositiveInfinity | NegativeInfinity

  /** `!isNaN(n) && !(n <= 0)`: the numbers the conversion form accepts as an amount. */
  predicate IsPositive(n: Number) {
    n.PositiveInfinity? || (n.Finite? && n.value > 0.0)
  }

  /** Browser functions the controller calls but whose behaviour is not modelled:
      `parseFloat`, the conversion of a number to text in a template literal, and
      `new Date(ts).toLocaleString()`. */
  datatype Runtime = Runtime(
    parseFloat: string -> Number,
    numberText: Number -> string,
    localeTime: string -> string)

  datatype Button = Button(enabled: bool, caption: string)

  /** The result box: its visibility and its three text lines. */
  datatype ResultBox = ResultBox(visible: bool, fromAmount: string, toAmount: string, exchangeRate: string)

  /** A notification: its CSS class attribute and its text. */
  datatype Alert = Alert(className: string, text: string)

  /** The body posted to `/api/convert`, before `JSON.stringify`. */
  datatype ConvertBody = ConvertBody(fromCurrency: string, toCurrency: string, amount: Number)

  /** A request the controller sends to the back end. */
  datatype Request = LastUpdateRequest | UpdateRatesRequest | ConvertRequest(body: ConvertBody)

  datatype Page = Page(
    fromOptions: seq<string>,
    toOptions: seq<string>,
    fromValue: string,
    toValue: string,
    amountText: string,
    updateButton: Button,
    lastUpdate: string,
    resultBox: ResultBox,
    alerts: seq<Alert>,
    requests: seq<Request>)

  /** How a `fetch` ended: the decoded JSON body (its `status` field and the rest),
      or a rejected promise (network failure or a body that is not JSON). */
  datatype Reply<T> = Body(status: string, data: T) | TransportError

  /** The body of `/api/last_update` and `/api/update_rates`. */
  datatype TimestampData = TimestampData(lastUpdated: string)

  /** The body of `/api/convert`; `message` is `None` when the field is absent. */
  datatype ConvertData = ConvertData(message: Option<string>, result: real, rate: real)

  // ---------------------------------------------------------------------------
  // Selectors and alerts
  // ---------------------------------------------------------------------------

  /** The value a `<select>` reports after its value is set to `v`: `v` when one of
      its options has that value, otherwise nothing is selected and it reports "". */
  function SelectValue(options: seq<string>, v: string): string {
    if v in options then v else ""
  }

  /** The Bootstrap class of a notification: "danger" for type "error", "success" for any other. */
  function AlertClass(kind: string): string {
    "alert alert-" + (if kind == "error" then "danger" else "success") + " mt-3"
  }

  const DangerClass := AlertClass("error")
  const SuccessClass := AlertClass("success")

  /** `showAlert`: appends a notification (its removal after three seconds is not modelled). */
  function ShowAlert(p: Page, message: string, kind: string): (q: Page)
    ensures q.alerts == p.alerts + [Alert(AlertClass(kind), message)]
    ensures q.(alerts := p.alerts) == p
  {
    p.(alerts := p.alerts + [Alert(AlertClass(kind), message)])
  }

  // ---------------------------------------------------------------------------
  // Initialisation
  // ---------------------------------------------------------------------------

  /** `populateCurrencySelects`: appends one option per currency to each selector and
      selects USD as source and EUR as target. */
  function Populate(p: Page): (q: Page)
    ensures q.fromOptions == p.fromOptions + Currencies
    ensures q.toOptions == p.toOptions + Currencies
    ensures q.fromValue == "USD" && q.toValue == "EUR"
    ensures q.(fromOptions := p.fromOptions, toOptions := p.toOptions, fromValue := p.fromValue, toValue := p.toValue) == p
  {
    var fromOptions := p.fromOptions + Currencies;
    var toOptions := p.toOptions + Currencies;
    assert fromOptions[|p.fromOptions|] == "USD" && toOptions[|p.toOptions| + 1] == "EUR";
    p.(fromOptions := fromOptions, toOptions := toOptions,
       fromValue := SelectValue(fromOptions, "USD"), toValue := SelectValue(toOptions, "EUR"))
  }

  /** `initApp`: populates the selectors and asks for the last-update time. */
  function Init(p: Page): (q: Page)
    ensures q.fromOptions == p.fromOptions + Currencies && q.toOptions == p.toOptions + Currencies
    ensures q.fromValue == "USD" && q.toValue == "EUR"
    ensures q.requests == p.requests + [LastUpdateRequest]
    ensures q.(fromOptions := p.fromOptions, toOptions := p.toOptions, fromValue := p.fromValue,
               toValue := p.toValue, requests := p.requests) == p
  {
    var populated := Populate(p);
    populated.(requests := populated.requests + [LastUpdateRequest])
  }

  /** `loadLastUpdate`, response part: a success reply sets the last-update line;
      any other reply, and a failed request, are only logged. */
  function LastUpdateLoaded(p: Page, rt: Runtime, reply: Reply<TimestampData>): (q: Page)
    ensures reply.Body? && reply.status == "success" ==>
              q.lastUpdate == "Last update: " + rt.localeTime(reply.data.lastUpdated)
    ensures !(reply.Body? && reply.status == "success") ==> q.lastUpdate == p.lastUpdate
    ensures q.(lastUpdate := p.lastUpdate) == p
  {
    if reply.Body? && reply.status == "success" then
      p.(lastUpdate := "Last update: " + rt.localeTime(reply.data.lastUpdated))
    else p
  }

  // ---------------------------------------------------------------------------
  // Refreshing the rates
  // ---------------------------------------------------------------------------

  /** `updateExchangeRates`, request part: disables the button, shows the busy
      label and posts to `/api/update_rates`. */
  function StartRefresh(p: Page): (q: Page)
    ensures !q.updateButton.enabled && q.updateButton.caption == BusyLabel
    ensures q.requests == p.requests + [UpdateRatesRequest]
    ensures q.(updateButton := p.updateButton, requests := p.requests) == p
  {
    p.(updateButton := Button(false, BusyLabel), requests := p.requests + [UpdateRatesRequest])
  }

  /** `updateExchangeRates`, response part: a success reply updates the last-update
      line and shows a success alert; a non-success status or a failed request shows
      an error alert; in every case the button is enabled again with its idle label. */
  function FinishRefresh(p: Page, rt: Runtime, reply: Reply<TimestampData>): (q: Page)
    ensures q.updateButton == Button(true, IdleLabel)
    ensures |q.alerts| == |p.alerts| + 1 && q.alerts[..|p.alerts|] == p.alerts
    ensures reply.Body? && reply.status == "success" ==>
              && q.lastUpdate == "Last update: " + rt.localeTime(reply.data.lastUpdated)
              && q.alerts[|p.alerts|] == Alert(SuccessClass, RatesUpdated)
    ensures reply.Body? && reply.status != "success" ==>
              q.lastUpdate == p.lastUpdate && q.alerts[|p.alerts|] == Alert(DangerClass, RatesNotUpdated)
    ensures reply.TransportError? ==>
              q.lastUpdate == p.lastUpdate && q.alerts[|p.alerts|] == Alert(DangerClass, RatesUnreachable)
    ensures q.(updateButton := p.updateButton, lastUpdate := p.lastUpdate, alerts := p.alerts) == p
  {
    var handled :=
      match reply
      case Body(status, data) =>
        if status == "success" then
          ShowAlert(p.(lastUpdate := "Last update: " + rt.localeTime(data.lastUpdated)), RatesUpdated, "success")
        else ShowAlert(p, RatesNotUpdated, "error")
      case TransportError => ShowAlert(p, RatesUnreachable, "error");
    handled.(updateButton := Button(true, IdleLabel))
  }

  // ---------------------------------------------------------------------------
  // Swapping and converting
  // ---------------------------------------------------------------------------

  /** `swapCurrencies`: each selector is set to the value the other one held. */
  function Swap(p: Page): (q: Page)
    ensures p.toValue in p.fromOptions ==> q.fromValue == p.toValue
    ensures p.fromValue in p.toOptions ==> q.toValue == p.fromValue
    ensures q.(fromValue := p.fromValue, toValue := p.toValue) == p
  {
    p.(fromValue := SelectValue(p.fromOptions, p.toValue), toValue := SelectValue(p.toOptions, p.fromValue))
  }

  /** The check `convertCurrency` makes before sending anything: both currencies
      selected and the amount a number greater than zero. */
  predicate ValidForm(p: Page, rt: Runtime) {
    p.fromValue != "" && p.toValue != "" && IsPositive(rt.parseFloat(p.amountText))
  }

  /** `convertCurrency`, request part: a valid form posts exactly one conversion
      request carrying the selected currencies and the parsed amount; an invalid form
      sends nothing and shows the error alert. */
  function Submit(p: Page, rt: Runtime): (q: Page)
    ensures ValidForm(p, rt) <==> |q.requests| == |p.requests| + 1
    ensures ValidForm(p, rt) ==>
              && q.requests == p.requests + [ConvertRequest(ConvertBody(p.fromValue, p.toValue, rt.parseFloat(p.amountText)))]
              && IsPositive(q.requests[|p.requests|].body.amount)
              && q.alerts == p.alerts
    ensures !ValidForm(p, rt) ==> q.requests == p.requests && q.alerts == p.alerts + [Alert(DangerClass, InvalidFields)]
    ensures q.(requests := p.requests, alerts := p.alerts) == p
  {
    var amount := rt.parseFloat(p.amountText);
    var notPositive := match amount
      case Finite(v) => v <= 0.0
      case NegativeInfinity => true
      case _ => false;
    if p.fromValue == "" || p.toValue == "" || amount.NaN? || notPositive then
      ShowAlert(p, InvalidFields, "error")
    else
      p.(requests := p.requests + [ConvertRequest(ConvertBody(p.fromValue, p.toValue, amount))])
  }

  /** `convertCurrency`, response part, for the request `body`: a success reply
      fills and shows the result box; a non-success status shows the server's
      message (or a generic one when it is absent or empty); a failed request shows
      the transport error. Failures leave the result box as it was. */
  function FinishConvert(p: Page, rt: Runtime, body: ConvertBody, reply: Reply<ConvertData>): (q: Page)
    ensures reply.Body? && reply.status == "success" ==>
              && q.resultBox.visible
              && q.resultBox.fromAmount == rt.numberText(body.amount) + " " + body.fromCurrency
              && q.resultBox.toAmount == rt.numberText(Finite(reply.data.result)) + " " + body.toCurrency
              && q.resultBox.exchangeRate ==
                   "Exchange rate: 1 " + body.fromCurrency + " = " + rt.numberText(Finite(reply.data.rate)) + " " + body.toCurrency
              && q.alerts == p.alerts
    ensures reply.Body? && reply.status != "success" ==>
              && q.resultBox == p.resultBox
              && q.alerts == p.alerts + [Alert(DangerClass, FailureText(reply.data.message))]
    ensures reply.TransportError? ==>
              q.resultBox == p.resultBox && q.alerts == p.alerts + [Alert(DangerClass, ConversionUnreachable)]
    ensures q.(resultBox := p.resultBox, alerts := p.alerts) == p
  {
    match reply
    case Body(status, data) =>
      if status == "success" then DisplayResult(p, rt, body, data)
      else ShowAlert(p, FailureText(data.message), "error")
    case TransportError => ShowAlert(p, ConversionUnreachable, "error")
  }

  /** `data.message || 'Conversion failed'`: an absent or empty message falls back. */
  function FailureText(message: Option<string>): (text: string)
    ensures text != ""
    ensures message.Some? && message.value != "" ==> text == message.value
    ensures !(message.Some? && message.value != "") ==> text == ConversionFailed
  {
    if message.Some? && message.value != "" then message.value else ConversionFailed
  }

  /** `displayConversionResult`: writes the three lines and shows the box. */
  function DisplayResult(p: Page, rt: Runtime, body: ConvertBody, data: ConvertData): (q: Page)
    ensures q.resultBox.visible
    ensures q.resultBox.fromAmount == rt.numberText(body.amount) + " " + body.fromCurrency
    ensures q.resultBox.toAmount == rt.numberText(Finite(data.result)) + " " + body.toCurrency
    ensures q.resultBox.exchangeRate ==
              "Exchange rate: 1 " + body.fromCurrency + " = " + rt.numberText(Finite(data.rate)) + " " + body.toCurrency
    ensures q.(resultBox := p.resultBox) == p
  {
    p.(resultBox := ResultBox(
      true,
      rt.numberText(body.amount) + " " + body.fromCurrency,
      rt.numberText(Finite(data.result)) + " " + body.toCurrency,
      "Exchange rate: 1 " + body.fromCurrency + " = " + rt.numberText(Finite(data.rate)) + " " + body.toCurrency))
  }
}
