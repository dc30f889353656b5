# Currency converter: verified model of the conversion rule and the page controller

This project models the two pieces of decision logic in the currency converter:

- the Flask back end (`currency_con/app.py`): a table of USD-based exchange
  rates, its replacement by a fresh download (`fetch_exchange_rates`), the
  latest-update query (`get_last_update`) and the conversion handler
  (`convert_currency`), which normalises and validates its input and then picks
  the USD-to-X, X-to-USD or cross-rate formula, each with its own missing-rate
  error;
- the browser controller (`currency_con/static/js/script.js`), as a state
  machine over an immutable page record (the two currency selectors, the amount
  field, the refresh button, the last-update line, the result box, the alerts
  shown and the requests sent). Each event handler is a pure transition; a
  network response (success body, non-success body, or transport failure) is an
  argument of the transition that handles it.

Modules: `Wrappers` (Option, Result), `Text` (upper-casing), `Server` and
`ServerFacts` (app.py), `Client` and `ClientFacts` (script.js), and `Interplay`
(how the page's requests meet the handler).

Modelling choices:

- The database table is a sequence of rows in insertion order. A lookup
  `filter_by(base_currency='USD', target_currency=c).first()` is the first
  USD-based row for `c`.
- A reply of the back end is a `Result`: `Ok` carries the success body, and
  `Err` carries either a JSON error with its HTTP status (`Rejected`) or an
  exception that escapes the handler (`Crashed`). Flask answers the latter with
  a 500 page.
- Python's `float()` raises before the input check on an unparsable amount
  (ValueError) and on a JSON `null` amount (TypeError). A zero stored rate
  makes the division raise. All three are modelled as `Crashed`, not excluded
  by a precondition. Properties that need positive rates
  (`ServerFacts.PositiveRates`) assume them as hypotheses.
- The success body's rate is `result / amount`. Its `else 0` fallback for a zero
  amount cannot be reached, because the input check already requires a positive
  amount.
- The clock (`datetime.utcnow`) is a parameter `now`. The rates API reply is a
  parameter: `None` when the HTTP call or JSON decoding raised, otherwise a
  body whose `base` and `rates` keys may be missing.
- JavaScript numbers are NaN, a finite real, or one of the two infinities.
  `JSON.stringify` writes NaN and the infinities as `null`.
- Three browser functions are fields of a `Runtime` parameter: `parseFloat`,
  the conversion of a number to text in a template literal, and
  `toLocaleString` on dates.
- Setting a `<select>`'s value follows the DOM rule: if no option has that
  value, nothing is selected and the selector reports "".
- Behaviour worth noting:
  - The server accepts any currency string, not just the nine codes the page
    offers.
  - On a transport failure, the conversion alert is always the fixed text
    "An error occurred during conversion.", never a server message.
  - An amount field whose text `parseFloat` reads as Infinity passes the
    page's check. `JSON.stringify`
    sends it as `null`, and the server's `float(None)` raises TypeError
    (`Interplay.SentRequestsPassServerCheck`).

## Model

| member | source | states |
|---|---|---|
| Text.Upper | currency_con/app.py:96-97 | upper-casing keeps the length, maps each character by the ASCII upper-case rule, and leaves no lower-case letter |
| Text.UpperChar | currency_con/app.py:96-97 | one character upper-cased: a lower-case ASCII letter becomes its capital, every other character is kept, and the result is never a lower-case letter |
| Text.UpperIdempotent | currency_con/app.py:96-97 | upper-casing an already normalised code changes nothing |
| Server.FirstQuote | currency_con/app.py:107-110 | the position found is that of a USD-based quote for the currency with none before it, or the end of the table when there is none |
| Server.FindRate | currency_con/app.py:107-110 | the lookup finds nothing exactly when no row is a USD-based quote for the currency; otherwise it returns the rate of such a row |
| Server.RowsFor | currency_con/app.py:40-46 | a download yields one row per `rates` entry, in order, with the download's base, that entry's currency and rate, and the insertion time |
| Server.FetchExchangeRates | currency_con/app.py:26-54 | The refresh reports success exactly when the API reply has both `base` and `rates`, and then row i of the new table holds the i-th downloaded pair with the downloaded base and the current time, while a failed refresh leaves the table unchanged. |
| Server.LastUpdate | currency_con/app.py:78-90 | succeeds exactly when the table is non-empty, with a timestamp that some row holds and that no row exceeds; otherwise the 404 error "No rates available" |
| Server.Normalise | currency_con/app.py:96-97 | a missing currency field becomes ""; a present one becomes its upper-cased form, character by character, with the same length |
| Server.AmountOf | currency_con/app.py:98 | a missing amount reads as 0 and a numeric amount as its value |
| Server.Converted | currency_con/app.py:147-154 | the success body echoes the currencies and the amount, and its result equals amount times the reported rate |
| Server.Convert | currency_con/app.py:93-154 | an unparsable amount raises ValueError and a `null` amount TypeError; an empty normalised code or a non-positive amount gives "Invalid input data"; a success echoes the normalised codes and the positive amount, with result = amount × rate |
| Server.Respond | currency_con/app.py:98-145 | the same guarantees stated for already normalised codes |
| ServerFacts.ConvertFromUsd | currency_con/app.py:106-118 | from USD: result = amount × rate[to]; without a rate for `to` the 404 error names `to` |
| ServerFacts.ConvertToUsd | currency_con/app.py:120-132 | to USD: result = amount / rate[from]; without a rate for `from` the 404 error names `from`; a zero rate crashes |
| ServerFacts.ConvertCross | currency_con/app.py:120-145 | neither USD: result = amount × (rate[to] / rate[from]); the from-rate is checked first, so when both are missing the error names `from` |
| ServerFacts.InvalidInputIgnoresTable | currency_con/app.py:100-104 | invalid input is answered with an error that does not depend on the rate table, so no lookup takes place |
| ServerFacts.MissingFieldRejected | currency_con/app.py:96-104 | a missing currency field or a non-positive amount gives "Invalid input data" |
| ServerFacts.MissingAmountRejected | currency_con/app.py:98-104 | a request without an amount is rejected as "Invalid input data" |
| ServerFacts.ConvertCaseInsensitive | currency_con/app.py:96-97 | a request with lower-case codes gets the same reply as with their upper-case forms |
| ServerFacts.ConvertSucceedsIff | currency_con/app.py:100-145 | with positive rates, a conversion succeeds exactly when the input is valid and the rates its branch needs are stored, and then result and rate are positive |
| ServerFacts.RoundTripThroughUsd | currency_con/app.py:118-132 | over exact arithmetic, converting X to USD and the result back to X returns the original amount |
| ServerFacts.CrossRateThroughUsd | currency_con/app.py:106-145 | over exact arithmetic, the cross-rate result for X to Y equals converting X to USD and then USD to Y |
| ServerFacts.FindRateAfterRefresh | currency_con/app.py:36-46 | after a USD-based download, the rate found for any currency is the first downloaded rate for it, and none when it was not downloaded |
| ServerFacts.RefreshReplacesTable | currency_con/app.py:33-50 | after a refresh there is exactly one row per downloaded currency, all with the downloaded base and time; with base USD every conversion uses the downloaded rate, with another base no rate is found |
| ServerFacts.FailedRefreshKeepsTable | currency_con/app.py:52-54 | a failed download leaves the table as it was and reports failure |
| Client.ShowAlert | currency_con/static/js/script.js:156-162 | appends one alert with the message and the class of its type, and changes nothing else |
| Client.Populate | currency_con/static/js/script.js:27-43 | both selectors gain the nine currencies in order; USD is selected as source and EUR as target |
| Client.Init | currency_con/static/js/script.js:20-24 | initialisation appends the nine currencies to both selectors, selects USD to EUR, sends exactly one last-update request, and changes nothing else on the page |
| Client.LastUpdateLoaded | currency_con/static/js/script.js:46-60 | only a success reply changes the page, and only the last-update line, to the reply's formatted timestamp |
| Client.StartRefresh | currency_con/static/js/script.js:75-82 | the button is disabled with the busy label, one update request is sent, nothing else changes |
| Client.FinishRefresh | currency_con/static/js/script.js:83-99 | on every outcome the button is enabled with label "Update Rates" and one alert is appended; success updates the line with a success alert; a non-success status or a transport error keeps the line and shows its own error alert |
| Client.Swap | currency_con/static/js/script.js:103-107 | each selector receives the other's value when it offers it, and nothing else changes |
| Client.Submit | currency_con/static/js/script.js:110-132 | a request is sent exactly when both currencies are selected and the amount parses to a number that is not NaN and greater than zero (Infinity included); it is then the single new request, carrying those values; otherwise no request is sent and the "fill all fields" error alert is shown |
| Client.FinishConvert | currency_con/static/js/script.js:133-153 | success shows the box with "{amount} {from}", "{result} {to}" and "Exchange rate: 1 {from} = {rate} {to}"; a non-success status shows the message or "Conversion failed"; a transport error shows its own alert; failures leave the box untouched |
| Client.FailureText | currency_con/static/js/script.js:138 | the alert text is the server's message when present and non-empty, and "Conversion failed" otherwise |
| Client.DisplayResult | currency_con/static/js/script.js:148-153 | the result box becomes visible with the lines "{amount} {from}", "{result} {to}" and "Exchange rate: 1 {from} = {rate} {to}", and nothing else changes |
| ClientFacts.InitialPage | currency_con/static/js/script.js:27-43 | from empty selectors, both list exactly the nine currencies in order, with USD to EUR selected |
| ClientFacts.SwapExchanges | currency_con/static/js/script.js:103-107 | on a page whose selections are offered by both selectors, swap exchanges them and keeps that property |
| ClientFacts.SwapTwice | currency_con/static/js/script.js:103-107 | swapping twice restores the page, and swapping sends no request and shows no alert |
| ClientFacts.SelectableInvariant | currency_con/static/js/script.js:75-153 | every handler keeps each selection either empty or offered by both selectors |
| ClientFacts.AlertClassMapping | currency_con/static/js/script.js:156-158 | the class is "danger" exactly for type "error", "success" for every other type |
| ClientFacts.TimestampRenderedAlike | currency_con/static/js/script.js:46-60 | loading the last-update time and finishing a refresh render a success body's timestamp identically; the second clause, that a later successful load overrides an earlier one, follows from the line being a single field |
| ClientFacts.RefreshCycle | currency_con/static/js/script.js:75-99 | during a refresh the button is disabled; after any outcome it is enabled with label "Update Rates", one request was sent, and the single new alert is an error exactly when the refresh did not succeed; the last-update line changes only on success |
| ClientFacts.SubmitRequestOrAlert | currency_con/static/js/script.js:117-132 | a submit either sends one request or shows one alert, never both and never neither |
| ClientFacts.FailedConversionKeepsBoxHidden | currency_con/static/js/script.js:137-144 | a failed conversion keeps a hidden result box hidden and appends an error alert |
| ClientFacts.ScenarioSuccessfulConversion | currency_con/static/js/script.js:122-153 | amount "10", USD to EUR, reply 9.2 at 0.92: one request with USD, EUR and 10, and the box shows "10 USD", "9.2 EUR", "Exchange rate: 1 USD = 0.92 EUR" |
| ClientFacts.ScenarioNegativeAmount | currency_con/static/js/script.js:115-120 | amount "-5": no request, the error alert, the result box unchanged |
| ClientFacts.ScenarioInfiniteAmount | currency_con/static/js/script.js:115-131 | amount "Infinity" passes the check, and one request carrying Infinity is sent |
| ClientFacts.ScenarioServerError | currency_con/static/js/script.js:137-138 | reply "error" with message "Unknown currency": that message in an error alert, result box unchanged |
| Interplay.JsonNumber | currency_con/static/js/script.js:127-131 | `JSON.stringify` writes a finite amount as itself and NaN or an infinity as `null` |
| Interplay.Decoded | currency_con/app.py:95-98 | the server reads a body the page posts (script.js lines 127-131) with both currency fields present as the sent strings and the amount as `JSON.stringify` wrote it |
| Interplay.SentRequestsPassServerCheck | currency_con/static/js/script.js:117-131 | whatever the rate table, a request the page sends is never answered "Invalid input data"; with a finite amount it never makes `float()` raise, and with an Infinity amount the server raises TypeError |
| Interplay.ServerEchoesOfferedCurrencies | currency_con/app.py:147-151 | for the nine offered codes, a successful reply echoes exactly the currencies and amount the page sent |
| Interplay.OfferedCodesAreUpper | currency_con/static/js/script.js:2 | every offered currency code is already upper case |

## Left out

- Flask routing, the SQLAlchemy session and the outbound `requests.get` call are I/O. The table is a value, and the API reply and the clock are parameters.
- The `update_rates` route (`currency_con/app.py:61-75`) is not modelled; only `fetch_exchange_rates` underneath it is.
- Server.FetchExchangeRates: all new rows get one insertion time `now`. `datetime.utcnow` is in fact evaluated per row at insertion, and those times could differ.
- Server.FetchExchangeRates: on a body without `base` or `rates`, the rows are already deleted in the session before the exception. The model assumes the uncommitted deletion is rolled back when the session ends. That depends on ORM session semantics outside the model.
- Server.Convert: the reply omits `round(result, 4)` and `round(result / amount, 6)`. Arithmetic is exact over `real`, so the reported rate is exactly result / amount.
- Server.Convert: floating point NaN and infinities, JSON bodies that are not objects, and currency fields that are not strings are not modelled. A numeric amount is a finite real, and currency fields are strings or absent.
- Text.Upper: only ASCII letters are case-mapped. Python's `str.upper()` also maps non-ASCII letters, which no currency code uses.
- Client.Submit: which strings `parseFloat` maps to which number is left abstract (`Runtime.parseFloat`).
- Client.FinishConvert: number-to-text and `toLocaleString` formatting are left abstract (`Runtime` functions).
- Client.ShowAlert: the alert's removal after three seconds (`setTimeout`) is not modelled.
- DOM element lookup and event-listener wiring are not modelled. The markup of `index.html` is not part of this model, including the initial visibility of the result box.
- Logging is not modelled: the `print` of a failed refresh (`currency_con/app.py:53`) and the three `console.error` calls (`currency_con/static/js/script.js:54`, `93`, `142`) have no effect on the model.
- Overlapping requests are not modelled. The convert path has no re-entrancy guard, so two replies may arrive in any order; each reply is handled by its own transition, applied in whatever order the event loop delivers.
