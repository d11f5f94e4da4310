/**
  The bot's adapter to the finance quote service. HTTP and XML parsing are outside the model:
  each query receives the already-parsed upstream reply (or the fact that the call or the
  parse failed). Every failure leaves as an `ApiException` with a message and a code.
 */
module ApiAdapter {
  import opened Wrappers
  import opened Payloads

  datatype ApiException = ApiException(message: string, code: Option<string>)

  /** A query either returns a value or raises `ApiException`. */
  datatype Outcome<T> = Ok(value: T) | Raised(exc: ApiException)

  // ------------------------------------------------------------ query_stock

  /**
    A `resource` element of the single-quote document: the texts of its
    `field[@name="name"]` and `field[@name="price"]` elements (a text is None when the element
    is empty).
   */
  datatype Resource = Resource(nameFields: seq<Option<string>>, priceFields: seq<Option<string>>)

  /** The single-quote call: failed (HTTP error, bad status or unparsable XML), or a document. */
  datatype StockReply = StockUnavailable | StockDocument(resources: seq<Resource>)

  /** `str(x)` / `'{0}'.format(x)` of a request argument (list items assumed free of quotes). */
  function PyStr(a: Arg): string {
    match a
    case Null => "None"
    case Str(s) => s
    case List(items) => "[" + QuotedItems(items) + "]"
  }

  function QuotedItems(items: seq<string>): string {
    if items == [] then ""
    else if |items| == 1 then "'" + items[0] + "'"
    else "'" + items[0] + "', " + QuotedItems(items[1..])
  }

  /** `'{0}'.format(text)` where `text` may be None. */
  function PyText(t: Option<string>): string {
    if t.Some? then t.value else "None"
  }

  /** The single failure every `query_stock` error surfaces as. */
  function StockFailure(code: Arg): ApiException {
    ApiException("Error when querying Stock API for company " + PyStr(code) + ".", Some("BOT03"))
  }

  /** When the single-quote call yields a quote: a string code, a resource, both fields, a numeric price. */
  predicate StockAnswerable(code: Arg, reply: StockReply) {
    && code.Str?
    && reply.StockDocument?
    && |reply.resources| > 0
    && |reply.resources[0].nameFields| > 0
    && |reply.resources[0].priceFields| > 0
    && reply.resources[0].priceFields[0].Some?
    && IsNumeric(reply.resources[0].priceFields[0].value)
  }

  /**
    `query_stock`. A non-string code fails inside `urllib.parse.quote`; "not found" and the
    `BOT04` missing-field error are raised inside the `try` and re-wrapped, so every failure a
    caller sees is the `BOT03` one.
   */
  function QueryStock(code: Arg, reply: StockReply): (r: Outcome<BotResponse>)
    ensures r.Raised? ==> r.exc == StockFailure(code)
    ensures r.Ok? <==> StockAnswerable(code, reply)
    ensures r.Ok? ==> r.value.StockQuote? && r.value.companyCode == code.s
                      && r.value.name == reply.resources[0].nameFields[0]
                      && r.value.price == reply.resources[0].priceFields[0].value
                      && r.value.message == code.s + " (" + PyText(reply.resources[0].nameFields[0]) + ") quote is $"
                                            + reply.resources[0].priceFields[0].value + " per share."
  {
    if !code.Str? then Raised(StockFailure(code))
    else match reply
      case StockUnavailable => Raised(StockFailure(code))
      case StockDocument(resources) =>
        if |resources| == 0 then
          Raised(StockFailure(code))     // 'Could not find information for company ...', re-wrapped
        else
          var element := resources[0];
          if |element.nameFields| == 0 || |element.priceFields| == 0 then
            Raised(StockFailure(code))   // BOT04, re-wrapped
          else
            var name, price := element.nameFields[0], element.priceFields[0];
            if price.None? || !IsNumeric(price.value) then
              Raised(StockFailure(code)) // float() raised
            else
              Ok(StockQuote(code.s, name, price.value,
                            code.s + " (" + PyText(name) + ") quote is $" + price.value + " per share."))
  }

  // ------------------------------------------------------- query_day_range

  /** A child element of a `quote`: absent (`find` returns None), or present with its text. */
  datatype Child = Missing | Element(text: Option<string>)

  /** A `quote` element of the range document; `symbol` is its attribute, if present. */
  datatype Quote = Quote(name: Child, daysLow: Child, daysHigh: Child, symbol: Option<string>)

  /** The range call: failed (HTTP error, bad status or unparsable XML), or a document. */
  datatype RangeReply = RangeUnavailable | RangeDocument(quotes: seq<Quote>)

  /** `not args` for the admitted argument values: None, "" and []. */
  predicate IsFalsy(a: Arg) {
    a.Null? || a == Str("") || a == List([])
  }

  /** A present child whose text is non-empty (the truthiness test on `.text`). */
  predicate HasText(c: Child) {
    c.Element? && c.text.Some? && c.text.value != ""
  }

  /** `'"{0}"'.format(code)` for each code, comma-joined in input order. */
  function QuotedCodes(codes: seq<string>): string {
    if codes == [] then ""
    else if |codes| == 1 then "\"" + codes[0] + "\""
    else "\"" + codes[0] + "\"," + QuotedCodes(codes[1..])
  }

  /** The `query_codes` string placed in the range query. */
  function QueryCodes(args: Arg): string {
    match args
    case List(codes) => QuotedCodes(codes)
    case Str(s) => "\"" + s + "\""
    case Null => "\"None\""
  }

  function RangeFailure(args: Arg): ApiException {
    ApiException("Error getting data from Yahoo Finance Ranges API for company " + QueryCodes(args) + ".",
                 Some("BOT03"))
  }

  /** A quote with all three children present, non-empty texts and a non-empty symbol. */
  predicate Complete(q: Quote) {
    HasText(q.name) && HasText(q.daysLow) && HasText(q.daysHigh) && q.symbol.Some? && q.symbol.value != ""
  }

  /**
    One iteration of the loop over quotes: the entry appended for `q`, or None when a
    `KeyError` on the `symbol` attribute escapes the per-quote handler and aborts the batch.
   */
  function ClassifyQuote(q: Quote): (e: Option<RangeEntry>)
    ensures e.None? <==> q.symbol.None?
    ensures e.Some? && e.value.EntryOk? <==>
              Complete(q) && IsNumeric(q.daysLow.text.value) && IsNumeric(q.daysHigh.text.value)
    ensures e.Some? && e.value.EntryOk? ==>
              e.value.companyCode == q.symbol.value && e.value.name == q.name.text.value
              && e.value.daysLow == q.daysLow.text.value && e.value.daysHigh == q.daysHigh.text.value
              && e.value.message == q.symbol.value + " (" + q.name.text.value + ") Days Low quote is $"
                                    + q.daysLow.text.value + " and Days High is $" + q.daysHigh.text.value + "."
    ensures e.Some? && e.value.EntryError? ==>
              e.value.message == (if q.name.Missing? || q.daysLow.Missing? || q.daysHigh.Missing? || Complete(q)
                                  then "Error getting data for company " else "Could not find information for company ")
                                 + q.symbol.value
  {
    if q.name.Missing? || q.daysLow.Missing? || q.daysHigh.Missing? then
      // AttributeError on `.text`; the handler formats `quote.attrib['symbol']`
      if q.symbol.None? then None
      else Some(EntryError("Error getting data for company " + q.symbol.value))
    else if q.symbol.None? then
      None                                          // KeyError, not among the handled exceptions
    else
      var name, low, high, code := q.name.text, q.daysLow.text, q.daysHigh.text, q.symbol.value;
      if !(HasText(q.name) && HasText(q.daysLow) && HasText(q.daysHigh) && code != "") then
        Some(EntryError("Could not find information for company " + code))
      else if !IsNumeric(low.value) || !IsNumeric(high.value) then
        Some(EntryError("Error getting data for company " + code))   // float() raised ValueError
      else
        Some(EntryOk(code, name.value, low.value, high.value,
                     code + " (" + name.value + ") Days Low quote is $" + low.value
                     + " and Days High is $" + high.value + "."))
  }

  /** The whole loop: one entry per quote in upstream order, or None when some quote aborts it. */
  function ClassifyAll(quotes: seq<Quote>): Option<seq<RangeEntry>> {
    if quotes == [] then Some([])
    else
      match ClassifyAll(quotes[..|quotes| - 1])
      case None => None
      case Some(entries) =>
        match ClassifyQuote(quotes[|quotes| - 1])
        case None => None
        case Some(e) => Some(entries + [e])
  }

  /**
    The loop completes exactly when every quote has a `symbol`, and then yields one entry per
    quote, in the order upstream returned them, each the classification of its quote.
   */
  lemma {:induction false} ClassifyAllSpec(quotes: seq<Quote>)
    ensures ClassifyAll(quotes).Some? <==> forall i :: 0 <= i < |quotes| ==> quotes[i].symbol.Some?
    ensures ClassifyAll(quotes).Some? ==>
              var entries := ClassifyAll(quotes).value;
              |entries| == |quotes| && forall i :: 0 <= i < |quotes| ==> Some(entries[i]) == ClassifyQuote(quotes[i])
    decreases |quotes|
  {
    if quotes != [] {
      var init := quotes[..|quotes| - 1];
      ClassifyAllSpec(init);
      assert forall i :: 0 <= i < |init| ==> init[i] == quotes[i];
    }
  }

  /** What `query_day_range` returns or raises for an argument and an upstream reply. */
  function DayRangeResult(args: Arg, reply: RangeReply): Outcome<BotResponse> {
    if IsFalsy(args) then Raised(ApiException("Company code not provided.", Some("BOT01")))
    else match reply
      case RangeUnavailable => Raised(RangeFailure(args))
      case RangeDocument(quotes) =>
        if |quotes| == 0 then Raised(RangeFailure(args))   // 'Unexpected response', re-wrapped
        else match ClassifyAll(quotes)
          case None => Raised(RangeFailure(args))
          case Some(entries) => Ok(DayRanges(entries))
  }

  /**
    The promises of `query_day_range`: `BOT01` exactly for a falsy argument (before any upstream
    call); otherwise success exactly when upstream returned quotes that all carry a `symbol`,
    with one result per quote in upstream order; every other failure is `BOT03`.
   */
  lemma DayRangeResultSpec(args: Arg, reply: RangeReply)
    ensures var r := DayRangeResult(args, reply);
            (r.Raised? && r.exc.code == Some("BOT01")) <==> IsFalsy(args)
    ensures var r := DayRangeResult(args, reply);
            r.Raised? && !IsFalsy(args) ==> r.exc == RangeFailure(args)
    ensures DayRangeResult(args, reply).Ok? <==>
              !IsFalsy(args) && reply.RangeDocument? && |reply.quotes| > 0
              && forall i :: 0 <= i < |reply.quotes| ==> reply.quotes[i].symbol.Some?
    ensures var r := DayRangeResult(args, reply);
            r.Ok? ==> r.value.DayRanges? && |r.value.results| == |reply.quotes|
                      && forall i :: 0 <= i < |reply.quotes| ==> Some(r.value.results[i]) == ClassifyQuote(reply.quotes[i])
  {
    if reply.RangeDocument? {
      ClassifyAllSpec(reply.quotes);
    }
  }

  /**
    `query_day_range`: the guard, the query string, then the loop over the quotes with its
    per-quote exception handling; the argument and the upstream reply determine the outcome.
   */
  method QueryDayRange(args: Arg, reply: RangeReply) returns (r: Outcome<BotResponse>)
    ensures r == DayRangeResult(args, reply)
  {
    if IsFalsy(args) {
      return Raised(ApiException("Company code not provided.", Some("BOT01")));
    }
    var failure := Raised(RangeFailure(args));
    if reply.RangeUnavailable? || |reply.quotes| == 0 {
      return failure;
    }
    var quotes := reply.quotes;
    var results: seq<RangeEntry> := [];
    for i := 0 to |quotes|
      invariant ClassifyAll(quotes[..i]) == Some(results)
    {
      assert quotes[..i + 1][..i] == quotes[..i];
      var q := quotes[i];
      if q.name.Missing? || q.daysLow.Missing? || q.daysHigh.Missing? {
        if q.symbol.None? {
          ClassifyAllAborts(quotes, i);
          return failure;
        }
        results := results + [EntryError("Error getting data for company " + q.symbol.value)];
        continue;
      }
      if q.symbol.None? {
        ClassifyAllAborts(quotes, i);
        return failure;
      }
      var code := q.symbol.value;
      if !(HasText(q.name) && HasText(q.daysLow) && HasText(q.daysHigh) && code != "") {
        results := results + [EntryError("Could not find information for company " + code)];
        continue;
      }
      var low, high := q.daysLow.text.value, q.daysHigh.text.value;
      if !IsNumeric(low) || !IsNumeric(high) {
        results := results + [EntryError("Error getting data for company " + code)];
        continue;
      }
      results := results + [EntryOk(code, q.name.text.value, low, high,
                                    code + " (" + q.name.text.value + ") Days Low quote is $" + low
                                    + " and Days High is $" + high + ".")];
    }
    assert quotes[..|quotes|] == quotes;
    return Ok(DayRanges(results));
  }

  /** One quote without a `symbol` aborts the whole loop. */
  lemma ClassifyAllAborts(quotes: seq<Quote>, i: nat)
    requires i < |quotes| && quotes[i].symbol.None?
    ensures ClassifyAll(quotes).None?
  {
    ClassifyAllSpec(quotes);
  }
}
