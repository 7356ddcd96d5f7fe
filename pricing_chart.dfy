/**
 * The cost chart and the pricing table below it: a name-only search, the
 * three parallel arrays handed to the bar chart, the tooltip's note lookup
 * by bar index, the y-axis tick label, and the two price cells.
 */
module PricingChart {
  import opened Wrappers
  import opened Text
  import opened Seqs
  import opened PlatformsData
  import opened AppContext
  import opened FilterEngine

  /** The chart searches the name only. */
  const ChartFields := [NameField]

  /** `filteredPlatforms` of the chart. */
  function FilteredPlatforms(st: FilterState): (r: seq<Platform>)
    ensures |r| <= |Platforms|
  {
    FilterPlatforms(Platforms, st, ChartFields)
  }

  /** `chartData`: the bar labels, the cloud-cost series and the self-hosted-cost series. */
  datatype ChartData = ChartData(labels: seq<string>, cloud: seq<int>, selfHosted: seq<int>)

  /** The three arrays are parallel: bar i of each series belongs to record i of the filtered list. */
  function ChartDataOf(filtered: seq<Platform>): (d: ChartData)
    ensures |d.labels| == |d.cloud| == |d.selfHosted| == |filtered|
    ensures forall i :: 0 <= i < |filtered| ==>
      && d.labels[i] == filtered[i].name
      && d.cloud[i] == filtered[i].monthlyPrice
      && d.selfHosted[i] == filtered[i].selfHostedCost
  {
    ChartData(
      Map(filtered, (p: Platform) => p.name),
      Map(filtered, (p: Platform) => p.monthlyPrice),
      Map(filtered, (p: Platform) => p.selfHostedCost))
  }

  /** Why the tooltip callback fails: `filteredPlatforms[i]` is `undefined` and has no `priceNote`. */
  const NoRecordAtIndex := "Cannot read properties of undefined (reading 'priceNote')"

  /** `afterLabel`: the note of the record behind bar `dataIndex`. */
  function AfterLabel(filtered: seq<Platform>, dataIndex: int): (r: Result<string, string>)
    ensures r.Ok? <==> 0 <= dataIndex < |filtered|
    ensures r.Ok? ==> r.value == "Note: " + filtered[dataIndex].priceNote
    ensures r.Err? ==> r.error == NoRecordAtIndex
  {
    if 0 <= dataIndex < |filtered| then Ok("Note: " + filtered[dataIndex].priceNote)
    else Err(NoRecordAtIndex)
  }

  /**
   * Every bar the chart draws gets a tooltip, and the note in it is the note
   * of the record the bar is labelled with; the callback fails only off the
   * end of the data.
   */
  lemma TooltipMatchesBar(filtered: seq<Platform>, i: int)
    ensures AfterLabel(filtered, i).Ok? <==> 0 <= i < |ChartDataOf(filtered).labels|
    ensures 0 <= i < |filtered| ==>
      var note := AfterLabel(filtered, i).value;
      note[..6] == "Note: " && note[6..] == filtered[i].priceNote &&
      ChartDataOf(filtered).labels[i] == filtered[i].name
  {
  }

  /** The y-axis tick: "$" followed by the value. */
  function TickLabel(value: int): (s: string)
    ensures |s| >= 2 && s[0] == '$'
  {
    "$" + IntString(value)
  }

  /** The monthly-price cell: "Free" for 0, otherwise "$" followed by the price. */
  function PriceLabel(price: int): (s: string)
    ensures s == "Free" || (|s| >= 2 && s[0] == '$')
  {
    if price == 0 then "Free" else "$" + IntString(price)
  }

  /** The self-hosted cell: "N/A" for 0, otherwise "$" followed by the cost. */
  function SelfHostedLabel(cost: int): (s: string)
    ensures s == "N/A" || (|s| >= 2 && s[0] == '$')
  {
    if cost == 0 then "N/A" else "$" + IntString(cost)
  }

  /** A tick label always gives its value back. */
  lemma TickLabelRoundTrip(value: int)
    ensures TickLabel(value)[0] == '$'
    ensures ParseIntString(TickLabel(value)[1..]) == value
  {
    assert TickLabel(value)[1..] == IntString(value);
    IntStringRoundTrip(value);
  }

  /** The price cell reads "Free" exactly for price 0 and otherwise reads as the tick of the same value. */
  lemma PriceLabelRoundTrip(price: int)
    ensures PriceLabel(price) == "Free" <==> price == 0
    ensures price != 0 ==> PriceLabel(price) == TickLabel(price) && ParseIntString(PriceLabel(price)[1..]) == price
  {
    if price != 0 {
      assert PriceLabel(price)[0] == '$' != "Free"[0];
      TickLabelRoundTrip(price);
    }
  }

  /** The self-hosted cell reads "N/A" exactly for cost 0 and otherwise reads as the tick of the same value. */
  lemma SelfHostedLabelRoundTrip(cost: int)
    ensures SelfHostedLabel(cost) == "N/A" <==> cost == 0
    ensures cost != 0 ==> SelfHostedLabel(cost) == TickLabel(cost) && ParseIntString(SelfHostedLabel(cost)[1..]) == cost
  {
    if cost != 0 {
      assert SelfHostedLabel(cost)[0] == '$' != "N/A"[0];
      TickLabelRoundTrip(cost);
    }
  }
}
