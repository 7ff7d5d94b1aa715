# Solana arbitrage swap explorer — a Dafny model of its page logic

The page `Home` (pages/index.js) asks the Jupiter aggregator for swap routes
between a token the user names by its mint address and SOL. It works in one of
two modes: *Token → SOL* (sell the token for SOL) and *SOL → Token* (buy the
token with SOL). It keeps a catalog of token records indexed by address and
converts the typed amount into base units with the precision of the token
sold. It shows the routes it receives in a table and raises an alarm when the
best route's price impact is small enough under a user-set threshold.

The model covers the same ground, module by module:

- `Common` holds `Option` and `Result`.
- `Js` models the JavaScript semantics the page relies on:
  - `parseFloat`: leading white space, sign, digits, fraction, exponent, and the longest readable prefix; `NaN` becomes `None`;
  - `Math.round`, `String.prototype.slice(0, n)` and `Array.prototype.join`.
- `Catalog` holds the token record and the build of the address-keyed map (a loop, `IndexCatalog`, proved against the function `Indexed`).
- `Quotes` holds the quote query as a specification function `Query`:
  - token resolution, the amount check, the base-unit conversion and the request;
  - the response handling and the alarm rule, with the lemmas about them.
- `Display` holds `formatAmount`, the DEX and path cells, and a table row.
- `Home` holds the page as a class whose fields are the page's state variables:
  - its methods are the two effects, the input handlers and `getQuotes`;
  - `GetQuotes` is imperative, with the source's early returns. Its postcondition ties the new state to `Query`.

I/O is replaced by parameters:
- The catalog source (cache hit, fetched list, failed fetch) is a parameter of `LoadCatalog`. That method returns the map that would be written to the cache.
- The quote service's response (failed fetch, or a body with or without `data`) is a parameter of `GetQuotes`. That method returns the request it would send.

Some consequences of the code that a reader might not expect, each stated by a lemma:
- The alarm fires when `impact * 100 <= 100 - threshold`, so at the default threshold 0.5 a route with a price impact of 0.8 (80 %) raises it (`Quotes.EvaluateExamples`).
- A failed catalog fetch shows the catalog error, but a later query clears it and reports the user's token as missing, since the catalog stays empty (`Quotes.EmptyCatalogQuery`).
- A positive amount below half a base unit of the sold token passes the amount check and is sent as a request for zero base units (`Quotes.TinyAmountRoundsToZero`, `Quotes.TinyAmountRequest`).
- `formatAmount` shows `"0"` for a token of precision 0 whatever the amount, because `!decimals` is true for 0 (`Display.FormatAmount`).
- For a token of non-zero precision whose base amount is not zero, converting an amount to base units and formatting it back gives the amount to within half a base unit of the token (`Display.FormatBaseUnits`); otherwise the cell shows `"0"`.

## Model

| member | source | states |
|---|---|---|
| Catalog.Indexed | pages/index.js:26-29 | the built map's keys are exactly the records' addresses, and each entry is stored under its own address |
| Catalog.IndexedLastWins | pages/index.js:26-29 | a record with no later record of the same address is what the map holds under that address |
| Catalog.IndexedFromCatalog | pages/index.js:26-29 | every entry of the map is a record of the list, the last one carrying that address |
| Catalog.IndexCatalog | pages/index.js:26-29 | the `forEach` loop builds exactly `Indexed(tokens)`: keys are the addresses and the later record wins |
| Catalog.Lookup | pages/index.js:64-65 | `tokenMap[key]` is present exactly when the key is in the map, and is then its entry |
| Home.Home.constructor | pages/index.js:7-16 | the initial state: mode Token → SOL, empty addresses, amount "1000", no routes, no error, empty catalog, alarm off, threshold 0.5 |
| Home.Home.LoadCatalog | pages/index.js:18-37 | a cached map is used as is; a fetched list is indexed with the later record winning and that map is the one cached; a failed fetch sets the catalog error and leaves the map; nothing else changes |
| Home.Home.SelectMode | pages/index.js:39-50 | a new mode clears routes, error and alarm, and empties that mode's address field with its default amount ("1000" or "1"); the other field and the catalog are kept; the same mode changes nothing |
| Home.Home.SetInputMint | pages/index.js:170 | the input address becomes the typed text; nothing else changes |
| Home.Home.SetOutputMint | pages/index.js:196 | the output address becomes the typed text; nothing else changes |
| Home.Home.SetAmount | pages/index.js:182 | the amount becomes the typed text; nothing else changes |
| Home.Home.SetProfitThreshold | pages/index.js:222 | the threshold becomes `parseFloat` of the text (`None` for `NaN`); the alarm on screen is not re-evaluated |
| Home.Home.GetQuotes | pages/index.js:52-129 | the request, error, routes and alarm left behind are those of `Query`; `loading` is false on every exit; address, amount, catalog and threshold are untouched |
| Home.Home.OutputDecimals | pages/index.js:255-259 | the precision read for the output cell is exactly the `decimals` of the catalog record of SOL (Token → SOL) or of the output mint (SOL → Token), and absent when that record is missing |
| Home.Home.Table | pages/index.js:254-266 | one row per route, in order, with the joined labels, the formatted output amount, the impact and the joined path |
| Quotes.ResolveLegsChecks | pages/index.js:63-93 | resolution succeeds iff the user's mint and SOL are both in the catalog; a missing user token is reported before a missing SOL token; precisions are those of the sold and bought records, 0 when absent |
| Quotes.ParseAmountChecks | pages/index.js:95-100 | the amount passes iff `parseFloat` reads a number greater than 0, which is then the value; every failure is the invalid-amount error |
| Quotes.InvalidAmountExamples | pages/index.js:95-100 | "0", "-5", "abc" and "" are refused with the invalid-amount error |
| Quotes.DefaultAmountsValid | pages/index.js:95-100 | the defaults "1000" and "1" pass the amount check as 1000 and 1 |
| Quotes.BaseUnits | pages/index.js:102 | a positive amount gives a non-negative base amount |
| Quotes.BaseUnitsWithinHalfUnit | pages/index.js:102 | `round(amount * 10^d) / 10^d` lies within `1 / (2 * 10^d)` of the amount |
| Quotes.TinyAmountRoundsToZero | pages/index.js:102 | every amount with `0 < amount` and `amount * 10^d < 1/2` becomes a base amount of zero |
| Quotes.TinyAmountRequest | pages/index.js:95-110 | a query whose amount passes the check but is below half a base unit of the sold token sends a request for zero base units |
| Quotes.MakeRequest | pages/index.js:104-110 | the request sells the user's token for SOL or SOL for the user's token, as the mode says, with the base amount and slippage 1 |
| Quotes.Evaluate | pages/index.js:113-122 | an alarm needs a non-empty route list |
| Quotes.EvaluateOnlyFirstRoute | pages/index.js:118-122 | routes after the first never change the alarm |
| Quotes.EvaluateThresholdMonotone | pages/index.js:120 | an alarm raised at a threshold is raised at every lower threshold |
| Quotes.EvaluateExamples | pages/index.js:118-122 | at threshold 0.5, impacts 0.003 and 0.8 raise the alarm and 0.996 does not; a `NaN` threshold or no route never does |
| Quotes.QueryOutcome | pages/index.js:52-129 | a stopped query has an error, no routes and no alarm; a request is sent iff both checks pass; there is an error iff there are no routes; kept routes are the response's; the alarm implies the rule holds on route 0 |
| Quotes.QueryCheckOrder | pages/index.js:63-100 | a missing user token, then a missing SOL token, then a bad amount stop the query with their errors before any request |
| Quotes.EmptyCatalogQuery | pages/index.js:63-90 | with an empty catalog every query ends with the missing-user-token error |
| Quotes.QueryRequest | pages/index.js:102-123 | past the checks, the request carries `round(amount * 10^d)` of the sold token's precision; a failed fetch is the fetch error, an absent or empty `data` the no-route error, otherwise the routes are kept and the alarm is the rule on the first |
| Display.FormatAmount | pages/index.js:131-136 | `"0"` iff the amount or the precision is missing or zero; otherwise a non-zero number that times `10^d` is the base amount |
| Display.FormatBaseUnits | pages/index.js:131-136 | for a token of non-zero precision whose base amount is not zero, formatting the base amount computed from an amount gives that amount back to within half a base unit |
| Display.HopText | pages/index.js:263 | a hop is at most four leading characters of its input mint, an arrow, then at most four leading characters of its output mint |
| Display.LabelsLayout | pages/index.js:258 | each hop's label sits at its offset in the DEX cell, followed by ", " unless it is the last |
| Display.PathTextLayout | pages/index.js:262-264 | each hop's text sits at its offset in the path cell, followed by " → " unless it is the last |
| Display.OneHopRow | pages/index.js:258-264 | a one-hop route's DEX cell is its label and its path is its hop text |
| Display.PathTextLength | pages/index.js:262-264 | the path cell is empty without hops; otherwise its length is the hop texts' summed lengths plus 3 for each of the `hops - 1` separators |
| Home.WorkedQuery | pages/index.js:52-129 | worked example: 1000 tokens of precision 5 sold for SOL ask for 100000000 base units; a route with impact 0.01 is kept and raises the alarm; its row shows Orca, 0.5, 1 % and the path `Addr→Addr` |
| Js.MathRound | pages/index.js:102 | `Math.round(x)` is an integer within half of `x`, halves rounded up |
| Js.ScaleByPow10 | pages/index.js:102 | scaling by a non-negative power of ten is multiplication by `10^d` |
| Js.ParseFloatOfDigits | pages/index.js:95 | a digit string is read as the number it writes |
| Js.ParseFloatOfDecimal | pages/index.js:95 | `w.f` is read as the decimal number it writes |
| Js.ParseFloatOfNegated | pages/index.js:95 | a leading minus negates the number read after it |
| Js.ParseFloatOfNonNumeric | pages/index.js:95-96 | text that starts with neither white space, sign, digit nor point reads as `NaN` |
| Js.SlicePrefix | pages/index.js:263 | `slice(0, n)` is a prefix of length `min(n, length)` |
| Js.JoinLength | pages/index.js:258-264 | `parts.join(sep)` of a non-empty list has the parts' summed lengths plus one separator length for each part after the first |
| Js.JoinLayout | pages/index.js:258-264 | in `parts.join(sep)` the `i`-th part sits at its offset, followed by `sep` unless it is the last |

## Left out

- The network and the browser storage are not modelled. `fetch` and `localStorage` become the parameters and the returned values of `LoadCatalog` and `GetQuotes`. The URL text, its encoding and JSON decoding are not modelled; a response is given already decoded.
- React scheduling is not modelled: batching of state updates, re-renders and the `loading` window while a request is in flight. Two queries racing, or a query racing the catalog fetch, are not modelled either. Each handler runs to completion on the state of its render.
- The text `toLocaleString` and `toFixed(2)` produce is not modelled: locale grouping, the limit of six fraction digits, and two-decimal rounding. The cells keep the numbers those texts show.
- Numbers are exact reals, not IEEE doubles, so `amount * 10 ** decimals` has no rounding error before `Math.round`. `parseFloat` does not read `Infinity`.
- The route's `outAmount` is a number or absent here; the service sends a string, which `formatAmount` divides the same way.
- The catalog is a map from address to record. Keys that name properties of a plain object's prototype (such as `"constructor"`) are not modelled.
- `String.prototype.slice` counts UTF-16 code units; the model counts characters.
- `decimalsOutput` is computed by `getQuotes` but never used; the model computes it and drops it too.
- The JSX layout, the button styles and the mode buttons' markup are not modelled. The header, labels and the loading text are not modelled either. Showing the error and the alarm banner is a read of the fields `error` and `alarmTriggered`.
- Quotes.Message: the Indonesian texts of the errors are given, but that they differ from one another is not stated.
