/**
 * The swap explorer page: its state hooks as the fields of one object, the
 * effects and event handlers as methods that update them, and the route
 * table as a function of the current state.
 */
module Home {
  import opened Common
  import opened Js
  import opened Catalog
  import opened Quotes
  import opened Display

  /**
   * Where the catalog comes from when the page mounts: the decoded cache
   * entry, the freshly fetched token list, or a fetch that failed.
   */
  datatype CatalogSource = Cached(stored: map<string, TokenInfo>) | Fetched(records: seq<TokenInfo>) | CatalogFetchFailed

  /** The amount typed in when the user's token is sold. */
  const TOKEN_AMOUNT: string := "1000"
  /** The amount typed in when SOL is sold. */
  const SOL_AMOUNT: string := "1"
  /** The alarm threshold, in percent, before the user edits it. */
  const THRESHOLD: real := 0.5

  class Home {
    var mode: Mode
    var inputMint: string
    var outputMint: string
    /** The amount as typed. */
    var amount: string
    var loading: bool
    var quotes: seq<Route>
    var error: Option<ErrorKind>
    var tokenMap: map<string, TokenInfo>
    var alarmTriggered: bool
    /** `None` stands for the `NaN` that an unreadable threshold input yields. */
    var profitThreshold: Option<real>

    /**
     * Between two events: no query is in flight, and the alarm is only up
     * while a route is on screen.
     */
    predicate Valid()
      reads this
    {
      !loading && (alarmTriggered ==> quotes != [])
    }

    /** The initial state; the mode effect's first run leaves it as it is. */
    constructor ()
      ensures mode == TokenToSol && inputMint == "" && outputMint == "" && amount == TOKEN_AMOUNT
      ensures !loading && quotes == [] && error.None? && tokenMap == map[] && !alarmTriggered
      ensures profitThreshold == Some(THRESHOLD)
      ensures Valid()
    {
      mode := TokenToSol;
      inputMint := "";
      outputMint := "";
      amount := TOKEN_AMOUNT;
      loading := false;
      quotes := [];
      error := None;
      tokenMap := map[];
      alarmTriggered := false;
      profitThreshold := Some(THRESHOLD);
    }

    /**
     * The catalog effect: a cached map is taken as it is; a fetched list is
     * indexed by address, and the map is returned to be written to the
     * cache; a failed fetch only sets the catalog error.
     */
    method LoadCatalog(source: CatalogSource) returns (written: Option<map<string, TokenInfo>>)
      requires Valid()
      modifies this
      ensures Valid()
      ensures source.Cached? ==> tokenMap == source.stored && written.None? && error == old(error)
      ensures source.Fetched? ==>
                && tokenMap.Keys == Addresses(source.records)
                && (forall i :: 0 <= i < |source.records| && LastWithAddress(source.records, i) ==>
                      tokenMap[source.records[i].address] == source.records[i])
                && written == Some(tokenMap) && error == old(error)
      ensures source.CatalogFetchFailed? ==>
                tokenMap == old(tokenMap) && written.None? && error == Some(CatalogUnavailable)
      ensures mode == old(mode) && inputMint == old(inputMint) && outputMint == old(outputMint)
      ensures amount == old(amount) && loading == old(loading) && quotes == old(quotes)
      ensures alarmTriggered == old(alarmTriggered) && profitThreshold == old(profitThreshold)
    {
      match source
      case Cached(stored) =>
        tokenMap := stored;
        written := None;
      case Fetched(records) =>
        var m := IndexCatalog(records);
        tokenMap := m;
        written := Some(m);
      case CatalogFetchFailed =>
        error := Some(CatalogUnavailable);
        written := None;
    }

    /**
     * A click on a mode button. A new mode clears the routes, the error and
     * the alarm, empties the address field of the user's token in that mode
     * and puts back that mode's default amount; the same mode changes nothing.
     */
    method SelectMode(m: Mode)
      requires Valid()
      modifies this
      ensures Valid()
      ensures m == old(mode) ==> unchanged(this)
      ensures m != old(mode) ==>
                && mode == m && quotes == [] && error.None? && !alarmTriggered
                && (m == TokenToSol ==>
                      inputMint == "" && outputMint == old(outputMint) && amount == TOKEN_AMOUNT)
                && (m == SolToToken ==>
                      outputMint == "" && inputMint == old(inputMint) && amount == SOL_AMOUNT)
                && tokenMap == old(tokenMap) && profitThreshold == old(profitThreshold)
                && loading == old(loading)
    {
      if m != mode {
        mode := m;
        quotes := [];
        error := None;
        alarmTriggered := false;
        if mode == TokenToSol {
          inputMint := "";
          amount := TOKEN_AMOUNT;
        } else {
          outputMint := "";
          amount := SOL_AMOUNT;
        }
      }
    }

    /** Typing in the input address field. */
    method SetInputMint(text: string)
      modifies this
      ensures inputMint == text
      ensures mode == old(mode) && outputMint == old(outputMint) && amount == old(amount)
      ensures loading == old(loading) && quotes == old(quotes) && error == old(error)
      ensures tokenMap == old(tokenMap) && alarmTriggered == old(alarmTriggered)
      ensures profitThreshold == old(profitThreshold)
    {
      inputMint := text;
    }

    /** Typing in the output address field. */
    method SetOutputMint(text: string)
      modifies this
      ensures outputMint == text
      ensures mode == old(mode) && inputMint == old(inputMint) && amount == old(amount)
      ensures loading == old(loading) && quotes == old(quotes) && error == old(error)
      ensures tokenMap == old(tokenMap) && alarmTriggered == old(alarmTriggered)
      ensures profitThreshold == old(profitThreshold)
    {
      outputMint := text;
    }

    /** Typing in the amount field: the text is kept as typed. */
    method SetAmount(text: string)
      modifies this
      ensures amount == text
      ensures mode == old(mode) && inputMint == old(inputMint) && outputMint == old(outputMint)
      ensures loading == old(loading) && quotes == old(quotes) && error == old(error)
      ensures tokenMap == old(tokenMap) && alarmTriggered == old(alarmTriggered)
      ensures profitThreshold == old(profitThreshold)
    {
      amount := text;
    }

    /**
     * Typing in the threshold field: the text is read with `parseFloat`;
     * the alarm already shown is not re-evaluated.
     */
    method SetProfitThreshold(text: string)
      modifies this
      ensures profitThreshold == ParseFloat(text)
      ensures mode == old(mode) && inputMint == old(inputMint) && outputMint == old(outputMint)
      ensures amount == old(amount) && loading == old(loading) && quotes == old(quotes)
      ensures error == old(error) && tokenMap == old(tokenMap) && alarmTriggered == old(alarmTriggered)
    {
      profitThreshold := ParseFloat(text);
    }

    /**
     * A click on the search button, with the quote service's response as a
     * parameter. It returns the request it would send, if it gets that far,
     * and leaves the routes, the error and the alarm as `Query` states;
     * every exit clears the loading flag.
     */
    method GetQuotes(response: QuoteResponse) returns (request: Option<QuoteRequest>)
      modifies this
      ensures Valid()
      ensures mode == old(mode) && inputMint == old(inputMint) && outputMint == old(outputMint)
      ensures amount == old(amount) && tokenMap == old(tokenMap) && profitThreshold == old(profitThreshold)
      ensures var o := Query(mode, inputMint, outputMint, amount, tokenMap, profitThreshold, response);
              && request == o.request && error == o.error && quotes == o.quotes
              && alarmTriggered == o.alarm
    {
      // The handler reads the state of the render it was created in.
      var mode, inputMint, outputMint, amount, tokenMap, profitThreshold :=
        this.mode, this.inputMint, this.outputMint, this.amount, this.tokenMap, this.profitThreshold;
      ghost var o := Query(mode, inputMint, outputMint, amount, tokenMap, profitThreshold, response);

      error := None;
      quotes := [];
      alarmTriggered := false;
      loading := true;

      var inputToken, outputToken;
      var decimalsInput, decimalsOutput := 0, 0;
      if mode == TokenToSol {
        inputToken := Lookup(tokenMap, inputMint);
        outputToken := Lookup(tokenMap, SOL_MINT);
        if inputToken.None? {
          error := Some(InputTokenNotFound);
          loading := false;
          return None;
        }
        if outputToken.None? {
          error := Some(SolTokenNotFound);
          loading := false;
          return None;
        }
        decimalsInput := DecimalsOrZero(inputToken.value);
        decimalsOutput := DecimalsOrZero(outputToken.value);
      } else {
        inputToken := Lookup(tokenMap, SOL_MINT);
        outputToken := Lookup(tokenMap, outputMint);
        if outputToken.None? {
          error := Some(OutputTokenNotFound);
          loading := false;
          return None;
        }
        if inputToken.None? {
          error := Some(SolTokenNotFound);
          loading := false;
          return None;
        }
        decimalsInput := DecimalsOrZero(inputToken.value);
        decimalsOutput := DecimalsOrZero(outputToken.value);
      }

      var amountNumber := ParseFloat(amount);
      if amountNumber.None? || amountNumber.value <= 0.0 {
        assert o == Outcome(None, Some(InvalidAmount), [], false);
        error := Some(InvalidAmount);
        loading := false;
        return None;
      }

      var amountInBaseUnits := BaseUnits(amountNumber.value, decimalsInput);
      request := Some(MakeRequest(mode, inputMint, outputMint, amountInBaseUnits));

      match response {
        case FetchFailed =>
          error := Some(QuoteFetchFailed);
        case Received(data) =>
          if data.None? || |data.value| == 0 {
            error := Some(NoRoute);
          } else {
            assert o == Outcome(request, None, data.value, Evaluate(data.value, profitThreshold));
            quotes := data.value;
            var best := data.value[0];
            var impact := ParseFloat(best.priceImpactPct);
            if impact.Some? && profitThreshold.Some? && impact.value * 100.0 <= 100.0 - profitThreshold.value {
              alarmTriggered := true;
            }
          }
      }
      loading := false;
    }

    /** The precision of the bought token under the current mode, as the table reads it from the catalog. */
    function OutputDecimals(): (d: Option<nat>)
      reads this
      ensures var outMint := if mode == TokenToSol then SOL_MINT else outputMint;
              && (outMint in tokenMap ==> d == tokenMap[outMint].decimals)
              && (outMint !in tokenMap ==> d.None?)
    {
      var outMint := if mode == TokenToSol then SOL_MINT else outputMint;
      match Lookup(tokenMap, outMint)
      case Some(t) => t.decimals
      case None => None
    }

    /** The route table: one row per route kept, in the order of the response. */
    function Table(): (rows: seq<Row>)
      reads this
      ensures |rows| == |quotes|
      ensures forall i :: 0 <= i < |quotes| ==>
                && rows[i].dex == Labels(quotes[i].marketInfos)
                && rows[i].output == FormatAmount(quotes[i].outAmount, OutputDecimals())
                && rows[i].impactPercent == ImpactPercent(quotes[i])
                && rows[i].path == PathText(quotes[i].marketInfos)
    {
      seq(|quotes|, i reads this requires 0 <= i < |quotes| => RowOf(quotes[i], OutputDecimals()))
    }
  }

  /**
   * A worked query: a token of precision 5 sold for SOL (precision 9),
   * amount `"1000"`, and one route through Orca with a 0.01 price impact.
   * The request asks for 100000000 base units; the route is kept, the alarm
   * is raised at the default threshold, and its row shows 0.5 SOL, an
   * impact of 1% and the path `Addr→Addr`.
   */
  lemma WorkedQuery(token: string, amount: string, impact: string, dex: string, hop: MarketInfo)
    requires token != SOL_MINT && amount == "1000" && impact == "0.01" && dex == "Orca"
    requires hop == MarketInfo(dex, "Addr1", "Addr2")
    ensures var tokenMap := map[token := TokenInfo(token, "TKN", Some(5)), SOL_MINT := TokenInfo(SOL_MINT, "SOL", Some(9))];
            var route := Route(Some(500000000), impact, [hop]);
            && Query(TokenToSol, token, "", amount, tokenMap, Some(THRESHOLD), Received(Some([route])))
               == Outcome(Some(QuoteRequest(token, SOL_MINT, 100000000, SLIPPAGE)), None, [route], true)
            && RowOf(route, Some(9)) == Row(dex, Localized(0.5), Some(1.0), "Addr\U{2192}Addr")
  {
    var tokenMap := map[token := TokenInfo(token, "TKN", Some(5)), SOL_MINT := TokenInfo(SOL_MINT, "SOL", Some(9))];
    var route := Route(Some(500000000), impact, [hop]);
    assert ResolveLegs(TokenToSol, token, "", tokenMap) == Ok(Legs(5, 9));
    AmountTextThousand(amount);
    assert ParseAmount(amount) == Ok(1000.0);
    ThousandInBaseUnits();
    ImpactText001(impact);
    assert AlarmRule(route, Some(THRESHOLD));
    OneHopRow(hop);
    HalfSol();
    ShortHop(hop);
  }

  /** A hop between two five-character mints shows the first four of each. */
  lemma ShortHop(hop: MarketInfo)
    requires hop.inputMint == "Addr1" && hop.outputMint == "Addr2"
    ensures HopText(hop) == "Addr\U{2192}Addr"
  {
    var a, b := SlicePrefix(hop.inputMint, 4), SlicePrefix(hop.outputMint, 4);
    assert a == "Addr" && b == "Addr";
    assert a + [ARROW] + b == "Addr\U{2192}Addr";
  }

  /** 1000 tokens of precision 5 are 100000000 base units. */
  lemma ThousandInBaseUnits()
    ensures BaseUnits(1000.0, 5) == 100000000
  {
    assert Scale(1000.0, 5) == 100000000.0;
  }

  /** 500000000 base units of a token of precision 9 are half a token. */
  lemma HalfSol()
    ensures FormatAmount(Some(500000000), Some(9)) == Localized(0.5)
  {
    assert Pow10(9) == 1000000000;
  }
}
