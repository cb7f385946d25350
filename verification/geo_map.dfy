/**
 * The `generate_heatmap` callback of the geo_map draft: besides the rows,
 * the colour column and the title, it fixes the colour scale to run from 0
 * to the column's maximum over the whole table, and titles the colour bar.
 */
module GeoMap {
  import opened Wrappers
  import opened Dataset
  import opened Heatmap

  /** `generate_heatmap(dropdown_value, lang_value)` over the loaded table
      `df`. The range is taken before filtering, so its top is reached by
      some row of `df`, possibly of another language, and bounds every row
      plotted; it is None-topped only when the column holds no number. */
  function GenerateHeatmap(df: seq<Row>, dropdownValue: string, langValue: string): (fig: Figure)
    ensures fig.rows == FilterLanguage(df, langValue)
    ensures forall x :: x in fig.rows <==> x in df && x.language == langValue
    ensures fig.color == dropdownValue
    ensures fig.title == HeatmapTitle(langValue, dropdownValue)
    ensures fig.rangeColor.Some? && fig.rangeColor.value.lo == 0.0
    ensures fig.rangeColor.value.hi == ColumnMax(df, dropdownValue)
    ensures var hi := fig.rangeColor.value.hi;
            hi.None? <==> forall k :: 0 <= k < |df| ==> dropdownValue !in df[k].percents
    ensures var hi := fig.rangeColor.value.hi;
            hi.Some? ==> exists k :: 0 <= k < |df| && dropdownValue in df[k].percents
                                     && df[k].percents[dropdownValue] == hi.value
    ensures var hi := fig.rangeColor.value.hi;
            forall k :: 0 <= k < |df| && dropdownValue in df[k].percents ==>
              hi.Some? && df[k].percents[dropdownValue] <= hi.value
    ensures var hi := fig.rangeColor.value.hi;
            forall x :: x in fig.rows && dropdownValue in x.percents ==>
              hi.Some? && x.percents[dropdownValue] <= hi.value
    ensures fig.colorbarTitle == Some(dropdownValue + " (%)")
  {
    var filtered := FilterLanguage(df, langValue);
    var hi := ColumnMax(df, dropdownValue);
    assert forall x :: x in filtered ==> exists k :: 0 <= k < |df| && df[k] == x;
    Figure(filtered, dropdownValue, HeatmapTitle(langValue, dropdownValue),
           Some(ColorRange(0.0, hi)), Some(dropdownValue + " (%)"))
  }

  /** The colour scale does not depend on the selected language, so the three
      language maps of one column share one scale. */
  lemma RangeSharedAcrossLanguages(df: seq<Row>, dropdownValue: string, lang1: string, lang2: string)
    ensures GenerateHeatmap(df, dropdownValue, lang1).rangeColor == GenerateHeatmap(df, dropdownValue, lang2).rangeColor
  {
  }
}
