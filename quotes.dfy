/**
 * The quote query of the swap explorer: resolving the two legs of the pair
 * against the catalog, validating the amount and converting it to base
 * units, building the quote request, and evaluating the alarm on the best
 * route. `Query` states the outcome of one query as a function of the
 * component's state and of the quote service's response.
 */
module Quotes {
  import opened Common
  import opened Js
  import opened Catalog

  /** Which leg is the user's token: `tokenToSol` sells it for SOL, `solToToken` buys it with SOL. */
  datatype Mode = TokenToSol | SolToToken

  /** One hop of a route: the market it goes through and the two mints it swaps. */
  datatype MarketInfo = MarketInfo(dexLabel: string, inputMint: string, outputMint: string)

  /**
   * One candidate route of the quote service, best first. `outAmount` is
   * `None` when the field is missing; `priceImpactPct` is the text the
   * service sends, read with `parseFloat`.
   */
  datatype Route = Route(outAmount: Option<int>, priceImpactPct: string, marketInfos: seq<MarketInfo>)

  /**
   * What the quote fetch yields: `FetchFailed` when the fetch or the JSON
   * decoding throws, otherwise the decoded body, whose `data` array may be
   * missing.
   */
  datatype QuoteResponse = FetchFailed | Received(data: Option<seq<Route>>)

  /** The errors the component can show, one per message. */
  datatype ErrorKind =
    | CatalogUnavailable
    | InputTokenNotFound
    | SolTokenNotFound
    | OutputTokenNotFound
    | InvalidAmount
    | NoRoute
    | QuoteFetchFailed

  /** The message shown for each error. */
  function Message(e: ErrorKind): string
  {
    match e
    case CatalogUnavailable => "Gagal mengambil daftar token Jupiter"
    case InputTokenNotFound => "\U{26A0}\U{FE0F} Token input tidak ditemukan di Jupiter."
    case SolTokenNotFound => "\U{26A0}\U{FE0F} Token SOL tidak ditemukan di Jupiter."
    case OutputTokenNotFound => "\U{26A0}\U{FE0F} Token output tidak ditemukan di Jupiter."
    case InvalidAmount => "Jumlah token harus angka positif"
    case NoRoute => "\U{274C} Tidak ada jalur swap ditemukan. Mungkin token kurang likuid."
    case QuoteFetchFailed => "\U{274C} Gagal mengambil data dari Jupiter."
  }

  /** The parameters of the quote request: the pair, the amount in base units and the slippage. */
  datatype QuoteRequest = QuoteRequest(inputMint: string, outputMint: string, amount: int, slippage: nat)

  /** The slippage every request asks for. */
  const SLIPPAGE: nat := 1

  /** The mint field the user fills in: the input mint for `tokenToSol`, the output mint otherwise. */
  function UserMint(mode: Mode, inputMint: string, outputMint: string): string
  {
    if mode == TokenToSol then inputMint else outputMint
  }

  /** The mint that is sold: the user's token for `tokenToSol`, SOL otherwise. */
  function SoldMint(mode: Mode, inputMint: string): string
  {
    if mode == TokenToSol then inputMint else SOL_MINT
  }

  /** The mint that is bought: SOL for `tokenToSol`, the user's token otherwise. */
  function BoughtMint(mode: Mode, outputMint: string): string
  {
    if mode == TokenToSol then SOL_MINT else outputMint
  }

  /** The error for a user token missing from the catalog. */
  function UserTokenMissing(mode: Mode): ErrorKind
  {
    if mode == TokenToSol then InputTokenNotFound else OutputTokenNotFound
  }

  /** The precisions of the sold and the bought token. */
  datatype Legs = Legs(decimalsInput: nat, decimalsOutput: nat)

  /**
   * Token resolution: both legs are looked up, the user's token first, so
   * that a missing user token is reported even when SOL is missing too.
   */
  function ResolveLegs(mode: Mode, inputMint: string, outputMint: string,
                       tokenMap: map<string, TokenInfo>): (r: Result<Legs, ErrorKind>)
  {
    if mode == TokenToSol then
      var inputToken, outputToken := Lookup(tokenMap, inputMint), Lookup(tokenMap, SOL_MINT);
      if inputToken.None? then Err(InputTokenNotFound)
      else if outputToken.None? then Err(SolTokenNotFound)
      else Ok(Legs(DecimalsOrZero(inputToken.value), DecimalsOrZero(outputToken.value)))
    else
      var inputToken, outputToken := Lookup(tokenMap, SOL_MINT), Lookup(tokenMap, outputMint);
      if outputToken.None? then Err(OutputTokenNotFound)
      else if inputToken.None? then Err(SolTokenNotFound)
      else Ok(Legs(DecimalsOrZero(inputToken.value), DecimalsOrZero(outputToken.value)))
  }

  /**
   * Resolution succeeds exactly when the user's token and SOL are both in
   * the catalog; a missing user token is reported before a missing SOL
   * token; the precisions are those of the sold and the bought token, zero
   * when a record has none.
   */
  lemma ResolveLegsChecks(mode: Mode, inputMint: string, outputMint: string, tokenMap: map<string, TokenInfo>)
    ensures var r := ResolveLegs(mode, inputMint, outputMint, tokenMap);
            var user := UserMint(mode, inputMint, outputMint);
            && (r.Ok? <==> user in tokenMap && SOL_MINT in tokenMap)
            && (user !in tokenMap ==> r == Err(UserTokenMissing(mode)))
            && (user in tokenMap && SOL_MINT !in tokenMap ==> r == Err(SolTokenNotFound))
            && (r.Ok? ==>
                  && SoldMint(mode, inputMint) in tokenMap && BoughtMint(mode, outputMint) in tokenMap
                  && r.value.decimalsInput == DecimalsOrZero(tokenMap[SoldMint(mode, inputMint)])
                  && r.value.decimalsOutput == DecimalsOrZero(tokenMap[BoughtMint(mode, outputMint)]))
  {
  }

  /** The amount check: the text must parse to a number, and a positive one. */
  function ParseAmount(amount: string): (r: Result<real, ErrorKind>)
  {
    match ParseFloat(amount)
    case None => Err(InvalidAmount)
    case Some(v) => if v <= 0.0 then Err(InvalidAmount) else Ok(v)
  }

  /** An amount passes exactly when it reads as a positive number, and then it is that number. */
  lemma ParseAmountChecks(amount: string)
    ensures var r := ParseAmount(amount);
            && (r.Ok? <==> ParseFloat(amount).Some? && ParseFloat(amount).value > 0.0)
            && (r.Ok? ==> r.value == ParseFloat(amount).value)
            && (r.Err? ==> r.error == InvalidAmount)
  {
  }

  /** Zero, negative and non-numeric amounts are refused with the invalid-amount error. */
  lemma InvalidAmountExamples()
    ensures ParseAmount("0") == Err(InvalidAmount)
    ensures ParseAmount("-5") == Err(InvalidAmount)
    ensures ParseAmount("abc") == Err(InvalidAmount)
    ensures ParseAmount("") == Err(InvalidAmount)
  {
    AmountTextZero("0");
    AmountTextMinusFive("-5");
    ParseFloatOfNonNumeric("abc");
    ParseFloatOfNonNumeric("");
  }

  lemma AmountTextZero(s: string)
    requires s == "0"
    ensures ParseFloat(s) == Some(0.0)
  {
    DigitsValueOfDigit(s, '0');
    ParseFloatOfDigits(s);
  }

  lemma AmountTextMinusFive(s: string)
    requires s == "-5"
    ensures ParseFloat(s) == Some(-5.0)
  {
    var t := s[1..];
    assert t == ['5'] && s == ['-'] + t;
    DigitsValueOfDigit(t, '5');
    ParseFloatOfDigits(t);
    ParseFloatOfNegated(s, t);
  }

  /** The default amounts of the two modes pass the amount check. */
  lemma DefaultAmountsValid()
    ensures ParseAmount("1000") == Ok(1000.0)
    ensures ParseAmount("1") == Ok(1.0)
  {
    AmountTextThousand("1000");
    AmountTextOne("1");
  }

  lemma AmountTextThousand(s: string)
    requires s == "1000"
    ensures ParseFloat(s) == Some(1000.0)
  {
    DigitsValueOfFour(s, '1', '0', '0', '0');
    ParseFloatOfDigits(s);
  }

  lemma AmountTextOne(s: string)
    requires s == "1"
    ensures ParseFloat(s) == Some(1.0)
  {
    DigitsValueOfDigit(s, '1');
    ParseFloatOfDigits(s);
  }

  /** `Math.round(amount * 10 ** decimals)`: the amount in base units of a token with that precision. */
  function BaseUnits(amount: real, decimals: nat): (n: int)
    ensures amount > 0.0 ==> n >= 0
  {
    MathRound(Scale(amount, decimals))
  }

  /**
   * Converting back, the base amount is within half a base unit of the
   * amount entered: `n / 10^d` differs from `amount` by at most `1 / (2 * 10^d)`.
   */
  lemma BaseUnitsWithinHalfUnit(amount: real, decimals: nat)
    ensures var p := Pow10(decimals) as real;
            amount - 0.5 / p < BaseUnits(amount, decimals) as real / p <= amount + 0.5 / p
  {
    var p := Pow10(decimals) as real;
    ScaleByPow10(amount, decimals);
    ScaledBounds(amount, BaseUnits(amount, decimals) as real, p);
  }

  /** Dividing `x * p - 1/2 < n <= x * p + 1/2` by a positive `p`. */
  lemma ScaledBounds(x: real, n: real, p: real)
    requires p > 0.0 && x * p - 0.5 < n <= x * p + 0.5
    ensures x - 0.5 / p < n / p <= x + 0.5 / p
  {
    assert (x * p - 0.5) / p == x - 0.5 / p;
    assert (x * p + 0.5) / p == x + 0.5 / p;
  }

  /**
   * A positive amount below half a base unit of the token passes the amount
   * check but becomes a base amount of zero.
   */
  lemma {:induction false} TinyAmountRoundsToZero(amount: real, decimals: nat)
    requires 0.0 < amount && amount * Pow10(decimals) as real < 0.5
    ensures BaseUnits(amount, decimals) == 0
  {
    ScaleByPow10(amount, decimals);
  }

  /** The request pairs the user's token with SOL in the direction the mode gives. */
  function MakeRequest(mode: Mode, inputMint: string, outputMint: string, amount: int): (req: QuoteRequest)
    ensures mode == TokenToSol ==> req.inputMint == inputMint && req.outputMint == SOL_MINT
    ensures mode == SolToToken ==> req.inputMint == SOL_MINT && req.outputMint == outputMint
    ensures req.amount == amount && req.slippage == SLIPPAGE
  {
    QuoteRequest(SoldMint(mode, inputMint), BoughtMint(mode, outputMint), amount, SLIPPAGE)
  }

  /**
   * The alarm rule on one route: its price impact in percent is at most
   * `100 - threshold`. An impact or a threshold that is `NaN` makes the
   * comparison false.
   */
  function AlarmRule(best: Route, threshold: Option<real>): bool
  {
    match (ParseFloat(best.priceImpactPct), threshold)
    case (Some(impact), Some(t)) => impact * 100.0 <= 100.0 - t
    case _ => false
  }

  /** The alarm for a route list: only the first, best route is inspected. */
  function Evaluate(routes: seq<Route>, threshold: Option<real>): (alarm: bool)
    ensures alarm ==> routes != []
  {
    routes != [] && AlarmRule(routes[0], threshold)
  }

  /** Routes after the first never affect the alarm. */
  lemma EvaluateOnlyFirstRoute(a: seq<Route>, b: seq<Route>, threshold: Option<real>)
    requires a != [] && b != [] && a[0] == b[0]
    ensures Evaluate(a, threshold) == Evaluate(b, threshold)
  {
  }

  /** A higher threshold never raises an alarm that a lower one does not. */
  lemma EvaluateThresholdMonotone(routes: seq<Route>, lower: real, higher: real)
    requires lower <= higher && Evaluate(routes, Some(higher))
    ensures Evaluate(routes, Some(lower))
  {
  }

  lemma ImpactText0003(s: string)
    requires s == "0.003"
    ensures ParseFloat(s) == Some(0.003)
  {
    var f := s[2..];
    assert f == ['0', '0', '3'] && s == ['0', '.'] + f;
    DigitsValueOfThree(f, '0', '0', '3');
    ParseFloatOfFraction(s, f, 3);
    assert Fraction(3, 3) == 0.003;
  }

  lemma ImpactText08(s: string)
    requires s == "0.8"
    ensures ParseFloat(s) == Some(0.8)
  {
    var f := s[2..];
    assert f == ['8'] && s == ['0', '.'] + f;
    DigitsValueOfDigit(f, '8');
    ParseFloatOfFraction(s, f, 8);
    assert Fraction(8, 1) == 0.8;
  }

  lemma ImpactText0996(s: string)
    requires s == "0.996"
    ensures ParseFloat(s) == Some(0.996)
  {
    var f := s[2..];
    assert f == ['9', '9', '6'] && s == ['0', '.'] + f;
    DigitsValueOfThree(f, '9', '9', '6');
    ParseFloatOfFraction(s, f, 996);
    assert Fraction(996, 3) == 0.996;
  }

  lemma ImpactText001(s: string)
    requires s == "0.01"
    ensures ParseFloat(s) == Some(0.01)
  {
    var f := s[2..];
    assert f == ['0', '1'] && s == ['0', '.'] + f;
    DigitsValueOfTwo(f, '0', '1');
    ParseFloatOfFraction(s, f, 1);
    OneHundredth();
  }

  lemma OneHundredth()
    ensures Fraction(1, 2) == 0.01
  {
  }

  /**
   * The alarm at the default threshold 0.5: raised for impacts of 0.3% and
   * of 80% (80 <= 99.5), not for 99.6%; never for a `NaN` threshold or
   * an empty route list.
   */
  lemma EvaluateExamples(hops: seq<MarketInfo>)
    ensures Evaluate([Route(None, "0.003", hops)], Some(0.5))
    ensures Evaluate([Route(None, "0.8", hops)], Some(0.5))
    ensures !Evaluate([Route(None, "0.996", hops)], Some(0.5))
    ensures !Evaluate([Route(None, "0.003", hops)], None)
    ensures !Evaluate([], Some(0.5))
  {
    ImpactText0003("0.003");
    ImpactText08("0.8");
    ImpactText0996("0.996");
  }

  /** The state a query leaves behind: the request sent, if any, the error, the routes and the alarm. */
  datatype Outcome = Outcome(request: Option<QuoteRequest>, error: Option<ErrorKind>, quotes: seq<Route>, alarm: bool)

  /**
   * One quote query: the checks in their order (user token, SOL token,
   * amount), then the request, then the response. Every failure leaves
   * the routes empty and the alarm off; a response without routes is
   * the no-route error.
   */
  function Query(mode: Mode, inputMint: string, outputMint: string, amount: string,
                 tokenMap: map<string, TokenInfo>, threshold: Option<real>,
                 response: QuoteResponse): (o: Outcome)
  {
    match ResolveLegs(mode, inputMint, outputMint, tokenMap)
    case Err(e) => Outcome(None, Some(e), [], false)
    case Ok(legs) =>
      match ParseAmount(amount)
      case Err(e) => Outcome(None, Some(e), [], false)
      case Ok(value) =>
        var req := MakeRequest(mode, inputMint, outputMint, BaseUnits(value, legs.decimalsInput));
        match response
        case FetchFailed => Outcome(Some(req), Some(QuoteFetchFailed), [], false)
        case Received(data) =>
          if data.None? || data.value == [] then Outcome(Some(req), Some(NoRoute), [], false)
          else Outcome(Some(req), None, data.value, Evaluate(data.value, threshold))
  }

  /**
   * The shape of every outcome: a query stopped by a check has an error, no
   * routes and no alarm; it sends a request exactly when the checks pass;
   * it has an error exactly when it has no routes; the routes it keeps are
   * the response's; the alarm is only raised by the rule on the first one.
   */
  lemma QueryOutcome(mode: Mode, inputMint: string, outputMint: string, amount: string,
                     tokenMap: map<string, TokenInfo>, threshold: Option<real>,
                     response: QuoteResponse)
    ensures var o := Query(mode, inputMint, outputMint, amount, tokenMap, threshold, response);
            && (o.request.None? ==> o.error.Some? && o.quotes == [] && !o.alarm)
            && (o.request.Some? <==>
                  ResolveLegs(mode, inputMint, outputMint, tokenMap).Ok? && ParseAmount(amount).Ok?)
            && (o.error.None? <==> o.quotes != [])
            && (o.quotes != [] ==> o.request.Some? && response == Received(Some(o.quotes)))
            && (o.alarm ==> o.quotes != [] && AlarmRule(o.quotes[0], threshold))
  {
    var o := Query(mode, inputMint, outputMint, amount, tokenMap, threshold, response);
    match ResolveLegs(mode, inputMint, outputMint, tokenMap) {
      case Err(_) =>
      case Ok(legs) =>
        match ParseAmount(amount) {
          case Err(_) =>
          case Ok(value) =>
            var req := MakeRequest(mode, inputMint, outputMint, BaseUnits(value, legs.decimalsInput));
            match response {
              case FetchFailed =>
              case Received(data) =>
                if data.Some? && data.value != [] {
                  assert o == Outcome(Some(req), None, data.value, Evaluate(data.value, threshold));
                }
            }
        }
    }
  }

  /**
   * The checks come in a fixed order and stop the query: a missing user
   * token is reported first, then a missing SOL token, then a bad amount,
   * whatever the other inputs and the response.
   */
  lemma QueryCheckOrder(mode: Mode, inputMint: string, outputMint: string, amount: string,
                        tokenMap: map<string, TokenInfo>, threshold: Option<real>,
                        response: QuoteResponse)
    ensures var o := Query(mode, inputMint, outputMint, amount, tokenMap, threshold, response);
            && (UserMint(mode, inputMint, outputMint) !in tokenMap ==>
                  o.error == Some(UserTokenMissing(mode)) && o.request.None?)
            && (UserMint(mode, inputMint, outputMint) in tokenMap && SOL_MINT !in tokenMap ==>
                  o.error == Some(SolTokenNotFound) && o.request.None?)
            && (ResolveLegs(mode, inputMint, outputMint, tokenMap).Ok? && ParseAmount(amount).Err? ==>
                  o.error == Some(InvalidAmount) && o.request.None?)
  {
    ResolveLegsChecks(mode, inputMint, outputMint, tokenMap);
    ParseAmountChecks(amount);
  }

  /**
   * With an empty catalog, as after a failed catalog fetch, every query
   * stops at the first check with the missing-user-token error.
   */
  lemma EmptyCatalogQuery(mode: Mode, inputMint: string, outputMint: string, amount: string,
                          threshold: Option<real>, response: QuoteResponse)
    ensures Query(mode, inputMint, outputMint, amount, map[], threshold, response)
            == Outcome(None, Some(UserTokenMissing(mode)), [], false)
  {
    ResolveLegsChecks(mode, inputMint, outputMint, map[]);
  }

  /**
   * A query whose amount is below half a base unit of the sold token still
   * sends a request, and that request asks for zero base units.
   */
  lemma TinyAmountRequest(mode: Mode, inputMint: string, outputMint: string, amount: string,
                          tokenMap: map<string, TokenInfo>, threshold: Option<real>,
                          response: QuoteResponse, legs: Legs, value: real)
    requires ResolveLegs(mode, inputMint, outputMint, tokenMap) == Ok(legs)
    requires ParseAmount(amount) == Ok(value)
    requires value * Pow10(legs.decimalsInput) as real < 0.5
    ensures var o := Query(mode, inputMint, outputMint, amount, tokenMap, threshold, response);
            o.request.Some? && o.request.value.amount == 0
  {
    ParseAmountChecks(amount);
    TinyAmountRoundsToZero(value, legs.decimalsInput);
  }

  /**
   * A query that gets past the checks asks for `round(amount * 10^d)` base
   * units of the sold token, `d` its precision (zero when missing), in the
   * direction of the mode; the routes it keeps are the response's, in
   * order, and the alarm is the rule on the first.
   */
  lemma QueryRequest(mode: Mode, inputMint: string, outputMint: string, amount: string,
                     tokenMap: map<string, TokenInfo>, threshold: Option<real>,
                     response: QuoteResponse)
    requires ResolveLegs(mode, inputMint, outputMint, tokenMap).Ok? && ParseAmount(amount).Ok?
    ensures var o := Query(mode, inputMint, outputMint, amount, tokenMap, threshold, response);
            var d := DecimalsOrZero(tokenMap[SoldMint(mode, inputMint)]);
            && o.request == Some(MakeRequest(mode, inputMint, outputMint,
                                             BaseUnits(ParseFloat(amount).value, d)))
            && (response == FetchFailed ==> o.error == Some(QuoteFetchFailed) && o.quotes == [])
            && (response == Received(None) || response == Received(Some([])) ==>
                  o.error == Some(NoRoute) && o.quotes == [] && !o.alarm)
            && (response.Received? && response.data.Some? && response.data.value != [] ==>
                  o.quotes == response.data.value && o.error.None?
                  && o.alarm == AlarmRule(response.data.value[0], threshold))
  {
    ResolveLegsChecks(mode, inputMint, outputMint, tokenMap);
    ParseAmountChecks(amount);
  }
}
