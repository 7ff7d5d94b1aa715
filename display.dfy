/**
 * The route table: one row per route with the DEX labels, the output amount
 * in whole tokens, the price impact in percent and the hop path.
 */
module Display {
  import opened Common
  import opened Js
  import opened Quotes

  /**
   * The text of an amount cell: `"0"`, or the number shown by
   * `toLocaleString` with at most six fraction digits, kept as that number.
   */
  datatype AmountText = ZeroText | Localized(value: real)

  /**
   * `formatAmount(val, decimals)`: `"0"` when either input is missing or
   * zero, otherwise the base amount `val` divided by `10^decimals`.
   */
  function FormatAmount(val: Option<int>, decimals: Option<nat>): (r: AmountText)
    ensures r == ZeroText <==> val.None? || val == Some(0) || decimals.None? || decimals == Some(0)
    ensures r.Localized? ==> r.value != 0.0 && r.value * Pow10(decimals.value) as real == val.value as real
  {
    if val.None? || val.value == 0 || decimals.None? || decimals.value == 0 then ZeroText
    else
      var p := Pow10(decimals.value) as real;
      DivideThenMultiply(val.value as real, p);
      Localized(val.value as real / p)
  }

  lemma DivideThenMultiply(x: real, p: real)
    requires p > 0.0
    ensures x / p * p == x
    ensures x != 0.0 ==> x / p != 0.0
  {
  }

  /**
   * Formatting a base amount computed from a human amount gives that amount
   * back to within half a base unit, for a token with a precision.
   */
  lemma FormatBaseUnits(amount: real, decimals: nat)
    requires decimals > 0 && BaseUnits(amount, decimals) != 0
    ensures var p := Pow10(decimals) as real;
            var r := FormatAmount(Some(BaseUnits(amount, decimals)), Some(decimals));
            r.Localized? && amount - 0.5 / p < r.value <= amount + 0.5 / p
  {
    BaseUnitsWithinHalfUnit(amount, decimals);
  }

  /** The arrow between the two ends of a hop. */
  const ARROW: char := '\U{2192}'

  /** The separator between hops: an arrow with a space on each side. */
  const HOP_SEPARATOR: string := [' ', ARROW, ' ']

  /** The separator between DEX labels. */
  const LABEL_SEPARATOR: string := ", "

  /** The text of one hop: the first four characters of its input and of its output mint around an arrow. */
  function HopText(h: MarketInfo): (r: string)
    ensures var a, b := SlicePrefix(h.inputMint, 4), SlicePrefix(h.outputMint, 4);
            && |r| == |a| + 1 + |b| && |a| <= 4 && |b| <= 4
            && r[..|a|] <= h.inputMint && r[|a|] == ARROW && r[|a| + 1..] <= h.outputMint
  {
    var a, b := SlicePrefix(h.inputMint, 4), SlicePrefix(h.outputMint, 4);
    var r := a + [ARROW] + b;
    assert r[..|a|] == a && r[|a| + 1..] == b;
    r
  }

  function HopTexts(hops: seq<MarketInfo>): (texts: seq<string>)
    ensures |texts| == |hops|
  {
    seq(|hops|, i requires 0 <= i < |hops| => HopText(hops[i]))
  }

  function LabelList(hops: seq<MarketInfo>): (labels: seq<string>)
    ensures |labels| == |hops|
  {
    seq(|hops|, i requires 0 <= i < |hops| => hops[i].dexLabel)
  }

  /** The DEX cell: the hops' labels joined by `", "`. */
  function Labels(hops: seq<MarketInfo>): string
  {
    Join(LabelList(hops), LABEL_SEPARATOR)
  }

  /** The path cell: the hops' texts joined by `" → "`. */
  function PathText(hops: seq<MarketInfo>): string
  {
    Join(HopTexts(hops), HOP_SEPARATOR)
  }

  /**
   * The `i`-th hop's label sits at its offset in the DEX cell, followed by
   * `", "` unless it is the last.
   */
  lemma LabelsLayout(hops: seq<MarketInfo>, i: nat)
    requires i < |hops|
    ensures var o := Offset(LabelList(hops), LABEL_SEPARATOR, i);
            var l := hops[i].dexLabel;
            && o + |l| <= |Labels(hops)| && Labels(hops)[o..o + |l|] == l
            && (i + 1 < |hops| ==> o + |l| + 2 <= |Labels(hops)| && Labels(hops)[o + |l|..o + |l| + 2] == ", ")
  {
    var parts := LabelList(hops);
    JoinLayout(parts, LABEL_SEPARATOR, i);
    assert parts[i] == hops[i].dexLabel;
  }

  /**
   * The `i`-th hop's text sits at its offset in the path cell, followed by
   * `" → "` unless it is the last; a one-hop path is that hop's text.
   */
  lemma PathTextLayout(hops: seq<MarketInfo>, i: nat)
    requires i < |hops|
    ensures var o := Offset(HopTexts(hops), HOP_SEPARATOR, i);
            var t := HopText(hops[i]);
            && o + |t| <= |PathText(hops)| && PathText(hops)[o..o + |t|] == t
            && (i + 1 < |hops| ==> o + |t| + 3 <= |PathText(hops)|
                                   && PathText(hops)[o + |t|..o + |t| + 3] == HOP_SEPARATOR)
  {
    var parts := HopTexts(hops);
    JoinLayout(parts, HOP_SEPARATOR, i);
    assert parts[i] == HopText(hops[i]);
  }

  /** A one-hop route's path is that hop's text, and its DEX cell is that hop's label. */
  lemma OneHopRow(h: MarketInfo)
    ensures PathText([h]) == HopText(h)
    ensures Labels([h]) == h.dexLabel
  {
    assert HopTexts([h]) == [HopText(h)];
    assert LabelList([h]) == [h.dexLabel];
  }

  /**
   * The path cell's length: the hop texts' lengths plus three characters
   * for each of the `|hops| - 1` separators; no hop gives an empty cell.
   */
  lemma PathTextLength(hops: seq<MarketInfo>)
    ensures hops == [] ==> PathText(hops) == ""
    ensures hops != [] ==> |PathText(hops)| == TotalLength(HopTexts(hops)) + 3 * (|hops| - 1)
  {
    if hops != [] {
      JoinLength(HopTexts(hops), HOP_SEPARATOR);
    }
  }

  /** The impact cell: the route's price impact in percent, `NaN` when it does not parse. */
  function ImpactPercent(q: Route): Option<real>
  {
    match ParseFloat(q.priceImpactPct)
    case Some(p) => Some(p * 100.0)
    case None => None
  }

  /** One row of the route table. */
  datatype Row = Row(dex: string, output: AmountText, impactPercent: Option<real>, path: string)

  /** The row of a route, its amount shown with the given precision of the bought token. */
  function RowOf(q: Route, decimals: Option<nat>): Row
  {
    Row(Labels(q.marketInfos), FormatAmount(q.outAmount, decimals), ImpactPercent(q), PathText(q.marketInfos))
  }
}
