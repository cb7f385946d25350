/**
 * The `generate_heatmap` callback of the map1 draft: the same rows, colour
 * column and title as geo_map, but no colour range (its `range_color`
 * argument is commented out) and no colour-bar title.
 */
module Map1 {
  import opened Wrappers
  import opened Dataset
  import opened Heatmap
  import GeoMap

  /** `generate_heatmap(dropdown_value, lang_value)` over the loaded table `df`. */
  function GenerateHeatmap(df: seq<Row>, dropdownValue: string, langValue: string): (fig: Figure)
    ensures fig.rows == FilterLanguage(df, langValue)
    ensures forall x :: x in fig.rows <==> x in df && x.language == langValue
    ensures fig.color == dropdownValue
    ensures fig.title == HeatmapTitle(langValue, dropdownValue)
    ensures fig.rangeColor == None && fig.colorbarTitle == None
  {
    Figure(FilterLanguage(df, langValue), dropdownValue, HeatmapTitle(langValue, dropdownValue), None, None)
  }

  /** The two drafts ask for the same map and differ only in the colour range
      and the colour bar's title. */
  lemma DraftsDifferOnlyInScale(df: seq<Row>, dropdownValue: string, langValue: string)
    ensures GenerateHeatmap(df, dropdownValue, langValue)
         == GeoMap.GenerateHeatmap(df, dropdownValue, langValue).(rangeColor := None, colorbarTitle := None)
  {
  }
}
