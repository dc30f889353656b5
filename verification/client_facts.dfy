/**
 Properties of the controller: the initial selection, swap as an involution that
 sends nothing, the refresh button restored on every outcome, the alert class
 mapping, and the example scenarios of the converter page.
 */
module ClientFacts {
  import opened Wrappers
  import opened Client

  /** Each selector holds nothing or a currency that both selectors offer. */
  predicate Selectable(p: Page) {
    && (p.fromValue == "" || (p.fromValue in p.fromOptions && p.fromValue in p.toOptions))
    && (p.toValue == "" || (p.toValue in p.fromOptions && p.toValue in p.toOptions))
  }

  /** Starting from empty selectors, initialisation offers the nine currencies in
      order in both selectors, selects USD to EUR, and sends one request. */
  lemma InitialPage(p: Page)
    requires p.fromOptions == [] && p.toOptions == []
    ensures var q := Init(p);
            && q.fromOptions == Currencies && q.toOptions == Currencies
            && q.fromValue == "USD" && q.toValue == "EUR"
            && q.requests == p.requests + [LastUpdateRequest]
            && Selectable(q)
  {
    assert Currencies[0] == "USD" && Currencies[1] == "EUR";
  }

  /** Swapping exchanges the two selections of a selectable page. */
  lemma SwapExchanges(p: Page)
    requires Selectable(p)
    ensures Swap(p).fromValue == p.toValue && Swap(p).toValue == p.fromValue
    ensures Selectable(Swap(p))
  {
  }

  /** Swapping twice restores the page; swapping never sends a request or changes
      anything besides the two selections. */
  lemma SwapTwice(p: Page)
    requires Selectable(p)
    ensures Swap(Swap(p)) == p
    ensures Swap(p).requests == p.requests && Swap(p).alerts == p.alerts
  {
    SwapExchanges(p);
    SwapExchanges(Swap(p));
  }

  /** No handler other than swap and initialisation touches the selections, so every
      transition keeps a page selectable. */
  lemma SelectableInvariant(p: Page, rt: Runtime, body: ConvertBody,
                            times: Reply<TimestampData>, conversion: Reply<ConvertData>)
    requires Selectable(p)
    ensures Selectable(Swap(p))
    ensures Selectable(Submit(p, rt))
    ensures Selectable(FinishConvert(p, rt, body, conversion))
    ensures Selectable(StartRefresh(p))
    ensures Selectable(FinishRefresh(p, rt, times))
    ensures Selectable(LastUpdateLoaded(p, rt, times))
  {
    SwapExchanges(p);
  }

  /** "alert-danger" is used exactly for notifications of type "error". */
  lemma AlertClassMapping(kind: string)
    ensures AlertClass(kind) == DangerClass <==> kind == "error"
    ensures AlertClass(kind) == SuccessClass <==> kind != "error"
  {
    assert DangerClass[13] != SuccessClass[13];
  }

  /** Loading the last-update time and finishing a refresh render a success body's
      timestamp identically, and a later successful load overrides an earlier one. */
  lemma TimestampRenderedAlike(p: Page, rt: Runtime, data: TimestampData, earlier: Reply<TimestampData>)
    ensures LastUpdateLoaded(p, rt, Body("success", data)).lastUpdate
         == FinishRefresh(p, rt, Body("success", data)).lastUpdate
    ensures LastUpdateLoaded(LastUpdateLoaded(p, rt, earlier), rt, Body("success", data))
         == LastUpdateLoaded(p, rt, Body("success", data))
  {
  }

  /** A refresh disables the button while in flight and, whatever the outcome, ends
      with the button enabled and labelled "Update Rates", one request sent, and one
      alert shown, which is an error alert exactly when the refresh did not succeed. */
  lemma RefreshCycle(p: Page, rt: Runtime, reply: Reply<TimestampData>)
    ensures !StartRefresh(p).updateButton.enabled
    ensures var q := FinishRefresh(StartRefresh(p), rt, reply);
            && q.updateButton == Button(true, IdleLabel)
            && q.requests == p.requests + [UpdateRatesRequest]
            && |q.alerts| == |p.alerts| + 1
            && (q.alerts[|p.alerts|].className == DangerClass <==> !(reply.Body? && reply.status == "success"))
            && (q.lastUpdate != p.lastUpdate ==> reply.Body? && reply.status == "success")
  {
    AlertClassMapping("error");
    AlertClassMapping("success");
  }

  /** A submitted form either sends exactly one request or shows exactly one alert. */
  lemma SubmitRequestOrAlert(p: Page, rt: Runtime)
    ensures var q := Submit(p, rt);
            (|q.requests| == |p.requests| + 1 && q.alerts == p.alerts) !=
            (q.requests == p.requests && |q.alerts| == |p.alerts| + 1)
  {
  }

  /** A failed conversion never shows the result box: a page whose box was hidden
      keeps it hidden, and gets one error alert. */
  lemma FailedConversionKeepsBoxHidden(p: Page, rt: Runtime, body: ConvertBody, reply: Reply<ConvertData>)
    requires !p.resultBox.visible
    requires !(reply.Body? && reply.status == "success")
    ensures !FinishConvert(p, rt, body, reply).resultBox.visible
    ensures FinishConvert(p, rt, body, reply).alerts[|p.alerts|].className == DangerClass
  {
  }

  // ---------------------------------------------------------------------------
  // Example scenarios of the converter page
  // ---------------------------------------------------------------------------

  /** Amount "10", USD to EUR, and the reply result 9.2 with rate 0.92: one request
      carries USD, EUR and 10, and the box shows "10 USD", "9.2 EUR" and the rate line. */
  lemma ScenarioSuccessfulConversion(p: Page, rt: Runtime)
    requires p.fromValue == "USD" && p.toValue == "EUR" && p.amountText == "10"
    requires rt.parseFloat("10") == Finite(10.0)
    requires rt.numberText(Finite(10.0)) == "10" && rt.numberText(Finite(9.2)) == "9.2"
    requires rt.numberText(Finite(0.92)) == "0.92"
    ensures var sent := Submit(p, rt);
            && sent.requests == p.requests + [ConvertRequest(ConvertBody("USD", "EUR", Finite(10.0)))]
            && var shown := FinishConvert(sent, rt, ConvertBody("USD", "EUR", Finite(10.0)),
                                          Body("success", ConvertData(None, 9.2, 0.92)));
               shown.resultBox == ResultBox(true, "10 USD", "9.2 EUR", "Exchange rate: 1 USD = 0.92 EUR")
  {
  }

  /** Amount "-5": nothing is sent, the error alert is shown, the result box is unchanged. */
  lemma ScenarioNegativeAmount(p: Page, rt: Runtime)
    requires p.amountText == "-5" && rt.parseFloat("-5") == Finite(-5.0)
    ensures var q := Submit(p, rt);
            && q.requests == p.requests
            && q.alerts == p.alerts + [Alert(DangerClass, InvalidFields)]
            && q.resultBox == p.resultBox
  {
  }

  /** Amount "Infinity": `parseFloat` yields Infinity, which passes the check, so a
      request is sent carrying that amount. */
  lemma ScenarioInfiniteAmount(p: Page, rt: Runtime)
    requires p.fromValue == "USD" && p.toValue == "EUR" && p.amountText == "Infinity"
    requires rt.parseFloat("Infinity") == PositiveInfinity
    ensures Submit(p, rt).requests == p.requests + [ConvertRequest(ConvertBody("USD", "EUR", PositiveInfinity))]
  {
  }

  /** The reply `{status: "error", message: "Unknown currency"}` shows that message
      in an error alert and leaves the result box as it was. */
  lemma ScenarioServerError(p: Page, rt: Runtime, body: ConvertBody)
    ensures var q := FinishConvert(p, rt, body, Body("error", ConvertData(Some("Unknown currency"), 0.0, 0.0)));
            && q.alerts == p.alerts + [Alert(DangerClass, "Unknown currency")]
            && q.resultBox == p.resultBox
  {
  }
}
